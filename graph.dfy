/** The external collaborators of the association, at their interface boundary: the
    vocabulary of relation and category identifiers it looks up, and the statement sink
    ("graph") it writes to. Both are only written to or read from; their internals are not
    part of this model. */
module Graph {
  import opened Wrappers
  import opened Text

  /** The vocabulary entries the association resolves: relation and class identifiers from
      the global translation table, and the Biolink category tags. */
  datatype Vocabulary = Vocabulary(
    hasPhenotype: string,
    startsDuring: string,
    endsDuring: string,
    hasQualifier: string,
    developmentalProcess: string,
    genotype: string,
    phenotypicFeature: string,
    biologicalProcess: string,
    lifeStage: string,
    environment: string)
  {
    /** Distinct names resolve to distinct identifiers. */
    predicate Distinct() {
      var relations := [hasPhenotype, startsDuring, endsDuring, hasQualifier, developmentalProcess];
      var categories := [genotype, phenotypicFeature, biologicalProcess, lifeStage, environment];
      (forall i, j :: 0 <= i < j < |relations| ==> relations[i] != relations[j])
      && (forall i, j :: 0 <= i < j < |categories| ==> categories[i] != categories[j])
    }
  }

  /** One write into the sink. `Association` is the reified primary statement the base
      association routine emits, with what that routine reads from the association;
      `Triple` is `addTriple(subject, predicate, object, subject_category, object_category)`;
      `Individual` is `addIndividualToGraph(node, label, type, ind_category)`. */
  datatype Statement =
    | Association(definedby: string, subjectId: string, relationId: string, objectId: string,
                  assocId: Value, subjectCategory: Value, objectCategory: Value)
    | Triple(sub: Value, pred: string, obj: Value,
             subjectCategory: Value, objectCategory: Value)
    | Individual(node: string, nodeLabel: Value, typeId: string, category: Value)

  /** The statement sink: the sequence of everything written to it, in order. */
  class Graph {
    var statements: seq<Statement>

    constructor ()
      ensures statements == []
    {
      statements := [];
    }

    method AddTriple(sub: Value, pred: string, obj: Value,
                     subjectCategory: Value := None, objectCategory: Value := None)
      modifies this
      ensures statements == old(statements) + [Triple(sub, pred, obj, subjectCategory, objectCategory)]
    {
      statements := statements + [Triple(sub, pred, obj, subjectCategory, objectCategory)];
    }

    method AddIndividual(node: string, nodeLabel: Value, typeId: string, category: Value := None)
      modifies this
      ensures statements == old(statements) + [Individual(node, nodeLabel, typeId, category)]
    {
      statements := statements + [Individual(node, nodeLabel, typeId, category)];
    }

    /** Where the base association routine leaves its primary statement. */
    method AddAssociation(st: Statement)
      requires st.Association?
      modifies this
      ensures statements == old(statements) + [st]
    {
      statements := statements + [st];
    }
  }
}
