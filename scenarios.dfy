/** Whole call sequences of the association against a fresh graph: construct, qualify, identify,
    materialise, and what the graph then holds. */
module Scenarios {
  import opened Wrappers
  import opened Text
  import opened Graph
  import opened G2P

  /** The environment of the scenarios is a provided value; spaces and tabs alone are not. */
  lemma ScenarioValues()
    ensures Provided(Some("ZECO:0000103"))
    ensures !Provided(Some("  ")) && !Provided(Some(" \t"))
  {
  }

  /** Source `MGI:test`, genotype `MGI:1`, phenotype `HP:0001250`, default relation and
      categories, no qualifiers: the graph receives the primary statement and nothing else. */
  method PlainAssociation(vocab: Vocabulary, makeId: IdPrimitive) returns (written: seq<Statement>)
    ensures written == [Association("MGI:test", "MGI:1", vocab.hasPhenotype, "HP:0001250",
                                    Some(makeId("MGI:test", "MGI:1", vocab.hasPhenotype, "HP:0001250", [None, None, None])),
                                    Some(vocab.genotype), Some(vocab.phenotypicFeature))]
  {
    var g := new Graph();
    var a := new G2PAssoc(g, vocab, makeId, "MGI:test", "MGI:1", "HP:0001250");
    a.SetAssociationId();
    a.AddAssociationToGraph();
    written := g.statements;
  }

  /** The same association with a provided stage range: four writes follow the primary
      statement, all about the stage-process node, and the range takes part in the derived
      identifier. */
  method StagedAssociation(vocab: Vocabulary, makeId: IdPrimitive, start: string, end: string)
    returns (written: seq<Statement>)
    requires Provided(Some(start)) && Provided(Some(end))
    ensures |written| == 5
    ensures written[0] == Association("MGI:test", "MGI:1", vocab.hasPhenotype, "HP:0001250",
                                      Some(makeId("MGI:test", "MGI:1", vocab.hasPhenotype, "HP:0001250",
                                                  [None, Some(start), Some(end)])),
                                      Some(vocab.genotype), Some(vocab.phenotypicFeature))
    ensures written[1] == Individual(StageProcessId(Some(start), Some(end)), None,
                                     vocab.developmentalProcess, Some(vocab.biologicalProcess))
    ensures written[2] == Triple(Some(StageProcessId(Some(start), Some(end))), vocab.startsDuring, Some(start),
                                 Some(vocab.biologicalProcess), Some(vocab.lifeStage))
    ensures written[3] == Triple(Some(StageProcessId(Some(start), Some(end))), vocab.endsDuring, Some(end),
                                 Some(vocab.biologicalProcess), Some(vocab.lifeStage))
    ensures written[4] == Triple(written[0].assocId, vocab.hasQualifier, Some(StageProcessId(Some(start), Some(end))),
                                 None, Some(vocab.biologicalProcess))
  {
    var g := new Graph();
    var a := new G2PAssoc(g, vocab, makeId, "MGI:test", "MGI:1", "HP:0001250");
    a.SetStage(Some(start), Some(end));
    a.SetAssociationId();
    assert a.startStageId == Some(start) && a.endStageId == Some(end) && a.environmentId == None;
    ProvidedIsTruthy(Some(start));
    ghost var e := a.Emission(None, None);
    assert e == [e[0]] + StageStatements(vocab, a.assocId, Some(start), Some(end));
    a.AddAssociationToGraph();
    written := g.statements;
    assert written == e;
  }

  /** Only a provided start stage: the stage block is still written, its "ends during"
      triple pointing at no object, and the node named after `None`. */
  method StartOnlyAssociation(vocab: Vocabulary, makeId: IdPrimitive, start: string)
    returns (written: seq<Statement>)
    requires Provided(Some(start))
    ensures |written| == 5
    ensures written[0] == Association("MGI:test", "MGI:1", vocab.hasPhenotype, "HP:0001250",
                                      Some(makeId("MGI:test", "MGI:1", vocab.hasPhenotype, "HP:0001250",
                                                  [None, Some(start), None])),
                                      Some(vocab.genotype), Some(vocab.phenotypicFeature))
    ensures written[1] == Individual(StageProcessId(Some(start), None), None,
                                     vocab.developmentalProcess, Some(vocab.biologicalProcess))
    ensures written[2] == Triple(Some(StageProcessId(Some(start), None)), vocab.startsDuring, Some(start),
                                 Some(vocab.biologicalProcess), Some(vocab.lifeStage))
    ensures written[3] == Triple(Some(StageProcessId(Some(start), None)), vocab.endsDuring, None,
                                 Some(vocab.biologicalProcess), Some(vocab.lifeStage))
    ensures written[4] == Triple(written[0].assocId, vocab.hasQualifier, Some(StageProcessId(Some(start), None)),
                                 None, Some(vocab.biologicalProcess))
    ensures StageProcessId(Some(start), None) == "_:" + RemoveColons(start) + "-None"
  {
    var g := new Graph();
    var a := new G2PAssoc(g, vocab, makeId, "MGI:test", "MGI:1", "HP:0001250");
    a.SetStage(Some(start), None);
    a.SetAssociationId();
    assert a.startStageId == Some(start) && a.endStageId == None && a.environmentId == None;
    ProvidedIsTruthy(Some(start));
    StageProcessIdParts(Some(start), None);
    RemoveColonsIdentity("None");
    ghost var e := a.Emission(None, None);
    assert e == [e[0]] + StageStatements(vocab, a.assocId, Some(start), None);
    a.AddAssociationToGraph();
    written := g.statements;
    assert written == e;
  }

  /** An environment and an explicit identifier: the identifier is used verbatim and one
      environment link follows the primary statement. */
  method EnvironmentAssociation(vocab: Vocabulary, makeId: IdPrimitive) returns (written: seq<Statement>)
    ensures written == [Association("MGI:test", "MGI:1", vocab.hasPhenotype, "HP:0001250", Some("X"),
                                    Some(vocab.genotype), Some(vocab.phenotypicFeature)),
                        Triple(Some("X"), vocab.hasQualifier, Some("ZECO:0000103"), None, Some(vocab.environment))]
  {
    var g := new Graph();
    var a := new G2PAssoc(g, vocab, makeId, "MGI:test", "MGI:1", "HP:0001250");
    ScenarioValues();
    a.SetEnvironment(Some("ZECO:0000103"));
    a.SetAssociationId(Some("X"));
    a.AddAssociationToGraph();
    written := g.statements;
  }

  /** Blank qualifiers are ignored, and category arguments override the stored ones: the
      graph receives only the primary statement, tagged with the given categories. */
  method BlankQualifiersIgnored(vocab: Vocabulary, makeId: IdPrimitive) returns (written: seq<Statement>)
    ensures written == [Association("MGI:test", "MGI:1", "RO:0002200", "HP:0001250",
                                    Some(makeId("MGI:test", "MGI:1", "RO:0002200", "HP:0001250", [None, None, None])),
                                    Some("biolink:Case"), Some(vocab.phenotypicFeature))]
  {
    var g := new Graph();
    var a := new G2PAssoc(g, vocab, makeId, "MGI:test", "MGI:1", "HP:0001250", rel := Some("RO:0002200"));
    ScenarioValues();
    a.SetStage(Some("  "), Some(" \t"));
    a.SetEnvironment(Some(" \t"));
    a.SetAssociationId();
    a.AddAssociationToGraph(Some("biolink:Case"));
    written := g.statements;
  }
}
