/** The genotype-to-phenotype association: one "genotype has phenotype" fact, its optional
    developmental-stage range and environment qualifiers, its content-derived identifier,
    and its expansion into statements for the graph. */
module G2P {
  import opened Wrappers
  import opened Text
  import opened Graph

  /** The shared association-identifier primitive of the base association,
      `make_association_id(definedby, sub, pred, obj, attributes)`. Its hashing is not part
      of this model: it is any function of its arguments. */
  type IdPrimitive = (string, string, string, string, seq<Value>) -> string

  /** The primitive gives different identifiers to different argument tuples. */
  ghost predicate Injective(f: IdPrimitive) {
    forall d1, s1, r1, o1, x1, d2, s2, r2, o2, x2 ::
      f(d1, s1, r1, o1, x1) == f(d2, s2, r2, o2, x2) ==>
        d1 == d2 && s1 == s2 && r1 == r2 && o1 == o2 && x1 == x2
  }

  /** A qualifier field as the setters leave it: unset, or a string that is not blank. */
  predicate IsQualifier(v: Value) {
    v.None? || Provided(v)
  }

  // ---------------------------------------------------------------------------------------
  // The stage-process node

  /** The guard `self.start_stage_id or self.end_stage_id is not None`: the start is tested
      for truthiness, the end only for presence. */
  predicate StageExpands(start: Value, end: Value) {
    Truthy(start) || end.Some?
  }

  /** On fields the setters produced, the asymmetric guard is simply "some bound is set". */
  lemma StageExpandsOnQualifiers(start: Value, end: Value)
    requires IsQualifier(start) && IsQualifier(end)
    ensures StageExpands(start, end) <==> start.Some? || end.Some?
  {
  }

  /** The asymmetry itself: an empty start alone does not expand, an empty end alone does. */
  lemma StageGuardAsymmetry()
    ensures !StageExpands(Some(""), None)
    ensures StageExpands(None, Some(""))
  {
  }

  /** The blank-node identifier of the stage process: `'_:'` followed by
      `str(start) + '-' + str(end)` with its colons removed. */
  function StageProcessId(start: Value, end: Value): (r: string)
    ensures |r| >= 2 && r[..2] == "_:"
    ensures ':' !in r[2..]
  {
    RemoveColonsDropsColons(PyStr(start) + "-" + PyStr(end));
    "_:" + RemoveColons(PyStr(start) + "-" + PyStr(end))
  }

  /** The node identifier is built from each bound separately: its colon-free text, a dash,
      then the other bound's colon-free text. */
  lemma StageProcessIdParts(start: Value, end: Value)
    ensures StageProcessId(start, end)
         == "_:" + RemoveColons(PyStr(start)) + "-" + RemoveColons(PyStr(end))
  {
    RemoveColonsAppend(PyStr(start) + "-", PyStr(end));
    RemoveColonsAppend(PyStr(start), "-");
  }

  /** Bounds without colons appear verbatim; an unset bound appears as `None`. */
  lemma StageProcessIdVerbatim(start: Value, end: Value)
    requires ':' !in PyStr(start) && ':' !in PyStr(end)
    ensures StageProcessId(start, end) == "_:" + PyStr(start) + "-" + PyStr(end)
  {
    StageProcessIdParts(start, end);
    RemoveColonsIdentity(PyStr(start));
    RemoveColonsIdentity(PyStr(end));
  }

  /** The colon closing a colon-free prefix is the one removed. */
  lemma PrefixColonRemoved(prefix: string)
    requires ':' !in prefix
    ensures RemoveColons(prefix + ":") == prefix
  {
    assert RemoveColons(":") == [] by {
      assert ":"[1..] == [];
    }
    RemoveColonsAppend(prefix, ":");
    RemoveColonsIdentity(prefix);
  }

  /** A CURIE `prefix:local` loses exactly its separating colon. */
  lemma CurieColonRemoved(prefix: string, local: string)
    requires ':' !in prefix && ':' !in local
    ensures RemoveColons(prefix + ":" + local) == prefix + local
  {
    RemoveColonsAppend(prefix + ":", local);
    PrefixColonRemoved(prefix);
    RemoveColonsIdentity(local);
  }

  /** For stage bounds that are CURIEs the node is `_:` and the two CURIEs with their
      colons removed, joined by a dash. */
  lemma StageProcessIdOfCuries(prefix1: string, local1: string, prefix2: string, local2: string)
    requires ':' !in prefix1 && ':' !in local1 && ':' !in prefix2 && ':' !in local2
    ensures StageProcessId(Some(prefix1 + ":" + local1), Some(prefix2 + ":" + local2))
         == "_:" + prefix1 + local1 + "-" + prefix2 + local2
  {
    StageProcessIdParts(Some(prefix1 + ":" + local1), Some(prefix2 + ":" + local2));
    CurieColonRemoved(prefix1, local1);
    CurieColonRemoved(prefix2, local2);
  }

  /** Because colons are dropped, different stage ranges can share one node: the bound
      `prefix:local` and the bound `prefixlocal` give the same identifier. */
  lemma StageProcessIdCollision(prefix: string, local: string, end: Value)
    requires ':' !in prefix && ':' !in local
    ensures prefix + ":" + local != prefix + local
    ensures StageProcessId(Some(prefix + ":" + local), end) == StageProcessId(Some(prefix + local), end)
  {
    assert |prefix + ":" + local| != |prefix + local|;
    StageProcessIdParts(Some(prefix + ":" + local), end);
    StageProcessIdParts(Some(prefix + local), end);
    CurieColonRemoved(prefix, local);
    RemoveColonsIdentity(prefix + local);
  }

  // ---------------------------------------------------------------------------------------
  // The statements one materialisation appends

  /** `category if category is not None else stored`. */
  function ResolveCategory(given: Value, stored: Value): (r: Value)
  {
    if given.Some? then given else stored
  }

  /** The stage-process block: the node, its two boundary triples and the qualifier link,
      written when the stage guard holds and empty otherwise. */
  function StageStatements(v: Vocabulary, assocId: Value, start: Value, end: Value): (r: seq<Statement>)
  {
    if StageExpands(start, end) then
      var sp := StageProcessId(start, end);
      [ Individual(sp, None, v.developmentalProcess, Some(v.biologicalProcess)),
        Triple(Some(sp), v.startsDuring, start, Some(v.biologicalProcess), Some(v.lifeStage)),
        Triple(Some(sp), v.endsDuring, end, Some(v.biologicalProcess), Some(v.lifeStage)),
        Triple(assocId, v.hasQualifier, Some(sp), None, Some(v.biologicalProcess)) ]
    else []
  }

  /** The environment qualifier link, written when an environment is set. */
  function EnvironmentStatements(v: Vocabulary, assocId: Value, env: Value): (r: seq<Statement>)
  {
    if env.Some? then [Triple(assocId, v.hasQualifier, env, None, Some(v.environment))] else []
  }

  /** 1 if `x` is a triple with predicate `pred` and object category `category`, else 0. */
  function Hit(x: Statement, pred: string, category: Value): (n: nat)
  {
    if x.Triple? && x.pred == pred && x.objectCategory == category then 1 else 0
  }

  /** The number of triples in `s` with predicate `pred` and object category `category`. */
  function Links(s: seq<Statement>, pred: string, category: Value): (n: nat)
    ensures n <= |s|
  {
    if s == [] then 0 else Hit(s[0], pred, category) + Links(s[1..], pred, category)
  }

  lemma LinksOfFour(w: Statement, x: Statement, y: Statement, z: Statement, pred: string, category: Value)
    ensures Links([w, x, y, z], pred, category)
         == Hit(w, pred, category) + Hit(x, pred, category) + Hit(y, pred, category) + Hit(z, pred, category)
  {
    assert [z][1..] == [];
    assert Links([z], pred, category) == Hit(z, pred, category);
    assert [y, z][1..] == [z];
    assert Links([y, z], pred, category) == Hit(y, pred, category) + Links([z], pred, category);
    assert [x, y, z][1..] == [y, z];
    assert Links([x, y, z], pred, category) == Hit(x, pred, category) + Links([y, z], pred, category);
    assert [w, x, y, z][1..] == [x, y, z];
  }

  lemma {:induction false} LinksAppend(a: seq<Statement>, b: seq<Statement>, pred: string, category: Value)
    ensures Links(a + b, pred, category) == Links(a, pred, category) + Links(b, pred, category)
  {
    if a == [] {
      assert a + b == b;
    } else {
      assert (a + b)[0] == a[0];
      assert (a + b)[1..] == a[1..] + b;
      LinksAppend(a[1..], b, pred, category);
    }
  }

  // ---------------------------------------------------------------------------------------
  // The association

  class G2PAssoc {
    const graph: Graph
    const vocab: Vocabulary
    const makeAssociationId: IdPrimitive
    const definedby: string
    const entityId: string
    const phenotypeId: string
    const rel: string
    const entityCategory: Value
    const phenotypeCategory: Value
    var startStageId: Value
    var endStageId: Value
    var environmentId: Value
    var stageProcessId: Value
    var assocId: Value

    /** Every qualifier is unset or non-blank: the setters never store anything else. */
    ghost predicate Valid()
      reads this
    {
      IsQualifier(startStageId) && IsQualifier(endStageId) && IsQualifier(environmentId)
    }

    /** A fresh association over `entityId` and `phenotypeId`, with the "has phenotype"
        relation unless `rel` is given and the Genotype / PhenotypicFeature categories unless
        others are given; no qualifier, no stage node, no identifier yet. */
    constructor (graph: Graph, vocab: Vocabulary, makeAssociationId: IdPrimitive,
                 definedby: string, entityId: string, phenotypeId: string,
                 rel: Value := None,
                 entityCategory: Value := Some(vocab.genotype),
                 phenotypeCategory: Value := Some(vocab.phenotypicFeature))
      ensures this.graph == graph && this.vocab == vocab && this.makeAssociationId == makeAssociationId
      ensures this.definedby == definedby && this.entityId == entityId && this.phenotypeId == phenotypeId
      ensures rel.None? ==> this.rel == vocab.hasPhenotype
      ensures rel.Some? ==> this.rel == rel.value
      ensures this.entityCategory == entityCategory && this.phenotypeCategory == phenotypeCategory
      ensures startStageId.None? && endStageId.None? && environmentId.None?
      ensures stageProcessId.None? && assocId.None?
      ensures Valid()
    {
      this.graph := graph;
      this.vocab := vocab;
      this.makeAssociationId := makeAssociationId;
      this.definedby := definedby;
      this.entityId := entityId;
      this.phenotypeId := phenotypeId;
      this.rel := if rel.None? then vocab.hasPhenotype else rel.value;
      startStageId := None;
      endStageId := None;
      environmentId := None;
      stageProcessId := None;
      assocId := None;
      this.entityCategory := entityCategory;
      this.phenotypeCategory := phenotypeCategory;
    }

    /** Stores each stage bound that is provided and keeps the previous value of the other;
        nothing else changes. */
    method SetStage(start: Value, end: Value)
      modifies this`startStageId, this`endStageId
      ensures startStageId == if Provided(start) then start else old(startStageId)
      ensures endStageId == if Provided(end) then end else old(endStageId)
      ensures old(startStageId).Some? ==> startStageId.Some?
      ensures old(endStageId).Some? ==> endStageId.Some?
      ensures old(Valid()) ==> Valid()
    {
      if start.Some? && !IsBlank(start.value) {
        startStageId := start;
      }
      if end.Some? && !IsBlank(end.value) {
        endStageId := end;
      }
    }

    /** Stores the environment if it is provided and otherwise keeps the previous one;
        nothing else changes. */
    method SetEnvironment(env: Value)
      modifies this`environmentId
      ensures environmentId == if Provided(env) then env else old(environmentId)
      ensures old(environmentId).Some? ==> environmentId.Some?
      ensures old(Valid()) ==> Valid()
    {
      if env.Some? && !IsBlank(env.value) {
        environmentId := env;
      }
    }

    /** The qualifier attributes of the identifier, in their fixed order. */
    function Attributes(): (r: seq<Value>)
      reads this
    {
      [environmentId, startStageId, endStageId]
    }

    /** `make_g2p_id`: the primitive over source, subject, relation, object and the
        qualifier attributes. */
    function MakeG2PId(): (r: string)
      reads this
    {
      makeAssociationId(definedby, entityId, rel, phenotypeId, Attributes())
    }

    /** Stores the explicit identifier verbatim, or derives one from the seven fields when
        none is given; nothing else changes. */
    method SetAssociationId(id: Value := None)
      modifies this`assocId
      ensures id.Some? ==> assocId == id
      ensures id.None? ==> assocId == Some(makeAssociationId(definedby, entityId, rel, phenotypeId,
                                                               [environmentId, startStageId, endStageId]))
      ensures old(Valid()) ==> Valid()
    {
      if id.None? {
        var derived := MakeG2PId();
        assocId := Some(derived);
      } else {
        assocId := id;
      }
    }

    /** Everything one materialisation writes, in order: the primary statement with the
        resolved categories, the stage-process block, the environment link. */
    function Emission(entityCategoryArg: Value, phenotypeCategoryArg: Value): (r: seq<Statement>)
      reads this
      ensures 1 <= |r| <= 6
      ensures r[0].Association? && r[0].assocId == assocId
      ensures r[0].subjectId == entityId && r[0].objectId == phenotypeId && r[0].relationId == rel
      ensures forall k :: 1 <= k < |r| ==> !r[k].Association?
    {
      [Association(definedby, entityId, rel, phenotypeId, assocId,
                   ResolveCategory(entityCategoryArg, entityCategory),
                   ResolveCategory(phenotypeCategoryArg, phenotypeCategory))]
      + StageStatements(vocab, assocId, startStageId, endStageId)
      + EnvironmentStatements(vocab, assocId, environmentId)
    }

    /** The base association routine: writes the primary statement with the given
        categories. */
    method EmitPrimary(subjectCategory: Value, objectCategory: Value)
      modifies graph
      ensures graph.statements
           == old(graph.statements)
              + [Association(definedby, entityId, rel, phenotypeId, assocId, subjectCategory, objectCategory)]
    {
      graph.AddAssociation(Association(definedby, entityId, rel, phenotypeId, assocId,
                                       subjectCategory, objectCategory));
    }

    /** Appends the association's statements to the graph, keeping everything already in
        it, and records the stage-process node when one is written. */
    method AddAssociationToGraph(entityCategoryArg: Value := None, phenotypeCategoryArg: Value := None)
      modifies this`stageProcessId, graph
      ensures graph.statements == old(graph.statements) + old(Emission(entityCategoryArg, phenotypeCategoryArg))
      ensures stageProcessId == if StageExpands(startStageId, endStageId)
                                then Some(StageProcessId(startStageId, endStageId))
                                else old(stageProcessId)
      ensures old(Valid()) ==> Valid()
    {
      ghost var before := graph.statements;
      ghost var stage := StageStatements(vocab, assocId, startStageId, endStageId);
      ghost var env := EnvironmentStatements(vocab, assocId, environmentId);
      assert Emission(entityCategoryArg, phenotypeCategoryArg)
          == [Association(definedby, entityId, rel, phenotypeId, assocId,
                          ResolveCategory(entityCategoryArg, entityCategory),
                          ResolveCategory(phenotypeCategoryArg, phenotypeCategory))] + stage + env;
      var subjectCategory := entityCategoryArg;
      if subjectCategory.None? {
        subjectCategory := entityCategory;
      }
      var objectCategory := phenotypeCategoryArg;
      if objectCategory.None? {
        objectCategory := phenotypeCategory;
      }
      EmitPrimary(subjectCategory, objectCategory);
      ghost var primary := graph.statements;

      if Truthy(startStageId) || endStageId.Some? {
        var sp := "_:" + RemoveColons(PyStr(startStageId) + "-" + PyStr(endStageId));
        assert sp == StageProcessId(startStageId, endStageId);
        assert stage == [Individual(sp, None, vocab.developmentalProcess, Some(vocab.biologicalProcess)),
                         Triple(Some(sp), vocab.startsDuring, startStageId, Some(vocab.biologicalProcess), Some(vocab.lifeStage)),
                         Triple(Some(sp), vocab.endsDuring, endStageId, Some(vocab.biologicalProcess), Some(vocab.lifeStage)),
                         Triple(assocId, vocab.hasQualifier, Some(sp), None, Some(vocab.biologicalProcess))];
        graph.AddIndividual(sp, None, vocab.developmentalProcess, Some(vocab.biologicalProcess));
        graph.AddTriple(Some(sp), vocab.startsDuring, startStageId,
                        Some(vocab.biologicalProcess), Some(vocab.lifeStage));
        graph.AddTriple(Some(sp), vocab.endsDuring, endStageId,
                        Some(vocab.biologicalProcess), Some(vocab.lifeStage));
        stageProcessId := Some(sp);
        graph.AddTriple(assocId, vocab.hasQualifier, stageProcessId, objectCategory := Some(vocab.biologicalProcess));
        assert graph.statements == primary + stage;
      } else {
        assert stage == [];
        assert graph.statements == primary + stage;
      }

      if environmentId.Some? {
        graph.AddTriple(assocId, vocab.hasQualifier, environmentId, objectCategory := Some(vocab.environment));
      }
      assert graph.statements == primary + stage + env;
    }
  }

  // ---------------------------------------------------------------------------------------
  // Properties of the association

  /** The tokens the emission tells apart. */
  lemma DistinctTokens(v: Vocabulary)
    requires v.Distinct()
    ensures v.hasQualifier != v.startsDuring && v.hasQualifier != v.endsDuring && v.startsDuring != v.endsDuring
    ensures v.biologicalProcess != v.environment && v.lifeStage != v.environment
    ensures v.lifeStage != v.biologicalProcess
  {
    var relations := [v.hasPhenotype, v.startsDuring, v.endsDuring, v.hasQualifier, v.developmentalProcess];
    var categories := [v.genotype, v.phenotypicFeature, v.biologicalProcess, v.lifeStage, v.environment];
    assert relations[1] != relations[2] && relations[1] != relations[3] && relations[2] != relations[3];
    assert categories[2] != categories[3] && categories[2] != categories[4] && categories[3] != categories[4];
  }

  /** The identifier derived for two associations agrees when their seven inputs agree. */
  lemma G2PIdDeterministic(a: G2PAssoc, b: G2PAssoc)
    requires a.makeAssociationId == b.makeAssociationId
    requires a.definedby == b.definedby && a.entityId == b.entityId && a.rel == b.rel
    requires a.phenotypeId == b.phenotypeId && a.environmentId == b.environmentId
    requires a.startStageId == b.startStageId && a.endStageId == b.endStageId
    ensures a.MakeG2PId() == b.MakeG2PId()
  {
  }

  /** With an injective primitive, two associations whose seven inputs differ anywhere get
      different identifiers; in particular the three qualifiers are told apart by position. */
  lemma G2PIdSeparates(a: G2PAssoc, b: G2PAssoc)
    requires a.makeAssociationId == b.makeAssociationId && Injective(a.makeAssociationId)
    requires a.definedby != b.definedby || a.entityId != b.entityId || a.rel != b.rel
          || a.phenotypeId != b.phenotypeId || a.environmentId != b.environmentId
          || a.startStageId != b.startStageId || a.endStageId != b.endStageId
    ensures a.MakeG2PId() != b.MakeG2PId()
  {
  }

  /** On a valid association the stage block is written exactly when a bound is set. */
  lemma StageBlockIffBoundSet(a: G2PAssoc)
    requires a.Valid()
    ensures StageStatements(a.vocab, a.assocId, a.startStageId, a.endStageId) != []
        <==> a.startStageId.Some? || a.endStageId.Some?
  {
    StageExpandsOnQualifiers(a.startStageId, a.endStageId);
  }

  /** The primary statement comes first, with each category taken from its argument when
      given and from the association otherwise; the stage block adds four statements and
      the environment one. */
  lemma EmissionLayout(a: G2PAssoc, entityCategoryArg: Value, phenotypeCategoryArg: Value)
    ensures var e := a.Emission(entityCategoryArg, phenotypeCategoryArg);
      && |e| == 1 + (if StageExpands(a.startStageId, a.endStageId) then 4 else 0)
                  + (if a.environmentId.Some? then 1 else 0)
      && e[0].Association?
      && e[0].subjectCategory == (if entityCategoryArg.Some? then entityCategoryArg else a.entityCategory)
      && e[0].objectCategory == (if phenotypeCategoryArg.Some? then phenotypeCategoryArg else a.phenotypeCategory)
      && e[0].assocId == a.assocId
      && e[0].definedby == a.definedby
  {
  }

  /** With the stage guard true, statements 1..4 are the node declaration, the "starts
      during" triple to the start bound, the "ends during" triple to the end bound (each
      written even when its bound is unset) and the link from the association. */
  lemma StageExpansion(a: G2PAssoc, entityCategoryArg: Value, phenotypeCategoryArg: Value)
    requires StageExpands(a.startStageId, a.endStageId)
    ensures var e := a.Emission(entityCategoryArg, phenotypeCategoryArg);
      var sp := StageProcessId(a.startStageId, a.endStageId);
      var v := a.vocab;
      && |e| >= 5
      && e[1] == Individual(sp, None, v.developmentalProcess, Some(v.biologicalProcess))
      && e[2] == Triple(Some(sp), v.startsDuring, a.startStageId, Some(v.biologicalProcess), Some(v.lifeStage))
      && e[3] == Triple(Some(sp), v.endsDuring, a.endStageId, Some(v.biologicalProcess), Some(v.lifeStage))
      && e[4] == Triple(a.assocId, v.hasQualifier, Some(sp), None, Some(v.biologicalProcess))
  {
  }

  /** With neither a stage nor an environment, only the primary statement is written. */
  lemma NoQualifiersOnlyPrimary(a: G2PAssoc, entityCategoryArg: Value, phenotypeCategoryArg: Value)
    requires !StageExpands(a.startStageId, a.endStageId) && a.environmentId.None?
    ensures var e := a.Emission(entityCategoryArg, phenotypeCategoryArg);
      |e| == 1 && e[0].Association?
  {
  }

  /** The primary statement is not a triple, so the triples counted in an emission are
      those of its stage block and its environment link. */
  lemma EmissionLinks(a: G2PAssoc, entityCategoryArg: Value, phenotypeCategoryArg: Value,
                      pred: string, category: Value)
    ensures Links(a.Emission(entityCategoryArg, phenotypeCategoryArg), pred, category)
         == Links(StageStatements(a.vocab, a.assocId, a.startStageId, a.endStageId), pred, category)
          + Links(EnvironmentStatements(a.vocab, a.assocId, a.environmentId), pred, category)
  {
    var p := [Association(a.definedby, a.entityId, a.rel, a.phenotypeId, a.assocId,
                          ResolveCategory(entityCategoryArg, a.entityCategory),
                          ResolveCategory(phenotypeCategoryArg, a.phenotypeCategory))];
    var st := StageStatements(a.vocab, a.assocId, a.startStageId, a.endStageId);
    var en := EnvironmentStatements(a.vocab, a.assocId, a.environmentId);
    assert a.Emission(entityCategoryArg, phenotypeCategoryArg) == (p + st) + en;
    LinksAppend(p + st, en, pred, category);
    LinksAppend(p, st, pred, category);
    assert p[1..] == [];
  }

  /** The stage block holds one stage link, one "starts during" and one "ends during"
      triple when the guard holds, none otherwise, and never an environment link. */
  lemma StageLinks(v: Vocabulary, assocId: Value, start: Value, end: Value)
    requires v.Distinct()
    ensures var st := StageStatements(v, assocId, start, end);
      var k := if StageExpands(start, end) then 1 else 0;
      && Links(st, v.hasQualifier, Some(v.environment)) == 0
      && Links(st, v.hasQualifier, Some(v.biologicalProcess)) == k
      && Links(st, v.startsDuring, Some(v.lifeStage)) == k
      && Links(st, v.endsDuring, Some(v.lifeStage)) == k
  {
    var st := StageStatements(v, assocId, start, end);
    DistinctTokens(v);
    if StageExpands(start, end) {
      assert st == [st[0], st[1], st[2], st[3]];
      LinksOfFour(st[0], st[1], st[2], st[3], v.hasQualifier, Some(v.environment));
      LinksOfFour(st[0], st[1], st[2], st[3], v.hasQualifier, Some(v.biologicalProcess));
      LinksOfFour(st[0], st[1], st[2], st[3], v.startsDuring, Some(v.lifeStage));
      LinksOfFour(st[0], st[1], st[2], st[3], v.endsDuring, Some(v.lifeStage));
    }
  }

  /** The environment block is one environment link when an environment is set and
      nothing else. */
  lemma EnvironmentLinks(v: Vocabulary, assocId: Value, env: Value)
    requires v.Distinct()
    ensures var en := EnvironmentStatements(v, assocId, env);
      && Links(en, v.hasQualifier, Some(v.environment)) == (if env.Some? then 1 else 0)
      && Links(en, v.hasQualifier, Some(v.biologicalProcess)) == 0
      && Links(en, v.startsDuring, Some(v.lifeStage)) == 0
      && Links(en, v.endsDuring, Some(v.lifeStage)) == 0
      && (env.Some? ==> en == [Triple(assocId, v.hasQualifier, env, None, Some(v.environment))])
      && (env.None? ==> en == [])
  {
    DistinctTokens(v);
    var en := EnvironmentStatements(v, assocId, env);
    if env.Some? {
      assert en[1..] == [];
    }
  }

  /** With an environment set, the last statement of the emission is the link from the
      association to that environment, with the Environment category; without one, the
      emission ends with the stage block, or with the primary statement if there is none. */
  lemma EmissionEnvironmentLink(a: G2PAssoc, entityCategoryArg: Value, phenotypeCategoryArg: Value)
    ensures var e := a.Emission(entityCategoryArg, phenotypeCategoryArg);
      && (a.environmentId.Some? ==>
            e[|e| - 1] == Triple(a.assocId, a.vocab.hasQualifier, a.environmentId, None, Some(a.vocab.environment)))
      && (a.environmentId.None? ==>
            e[1..] == StageStatements(a.vocab, a.assocId, a.startStageId, a.endStageId))
  {
  }

  /** Counted by kind: one environment link exactly when an environment is set, and one
      stage link, one "starts during" and one "ends during" triple exactly when the stage
      guard holds. */
  lemma EmissionLinkCounts(a: G2PAssoc, entityCategoryArg: Value, phenotypeCategoryArg: Value)
    requires a.vocab.Distinct()
    ensures var e := a.Emission(entityCategoryArg, phenotypeCategoryArg);
      var v := a.vocab;
      var k := if StageExpands(a.startStageId, a.endStageId) then 1 else 0;
      && Links(e, v.hasQualifier, Some(v.environment)) == (if a.environmentId.Some? then 1 else 0)
      && Links(e, v.hasQualifier, Some(v.biologicalProcess)) == k
      && Links(e, v.startsDuring, Some(v.lifeStage)) == k
      && Links(e, v.endsDuring, Some(v.lifeStage)) == k
  {
    var v := a.vocab;
    EmissionLinks(a, entityCategoryArg, phenotypeCategoryArg, v.hasQualifier, Some(v.environment));
    EmissionLinks(a, entityCategoryArg, phenotypeCategoryArg, v.hasQualifier, Some(v.biologicalProcess));
    EmissionLinks(a, entityCategoryArg, phenotypeCategoryArg, v.startsDuring, Some(v.lifeStage));
    EmissionLinks(a, entityCategoryArg, phenotypeCategoryArg, v.endsDuring, Some(v.lifeStage));
    StageLinks(v, a.assocId, a.startStageId, a.endStageId);
    EnvironmentLinks(v, a.assocId, a.environmentId);
  }

  /** Every qualifier link hangs off the association's identifier, and every boundary
      triple hangs off the stage-process node. */
  lemma EmissionAnchors(a: G2PAssoc, entityCategoryArg: Value, phenotypeCategoryArg: Value)
    requires a.vocab.Distinct()
    ensures var e := a.Emission(entityCategoryArg, phenotypeCategoryArg);
      var v := a.vocab;
      forall i :: 0 <= i < |e| && e[i].Triple? ==>
        (e[i].pred == v.hasQualifier ==> e[i].sub == a.assocId)
        && (e[i].pred != v.hasQualifier ==> e[i].sub == Some(StageProcessId(a.startStageId, a.endStageId)))
  {
    DistinctTokens(a.vocab);
  }
}
