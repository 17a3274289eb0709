# Genotype-to-phenotype association, modelled in Dafny

This project models `G2PAssoc`, the association class of the dipper knowledge-graph
pipeline that records one "genotype has phenotype" fact. A `G2PAssoc` object goes through
these steps:

- the caller constructs it over a genotype (or genotype part), a phenotype and a data source;
- it may receive a developmental-stage range and an environment as optional qualifiers;
- it receives an identifier, either explicitly or derived from its contents;
- it writes itself into a graph.

Writing to the graph means:
- the primary reified statement, written by the base association routine;
- a blank stage-process node with its "starts during" and "ends during" triples and a
  `has_qualifier` link, when a stage range is present;
- a `has_qualifier` link to the environment, when one is set.

Files:

- `wrappers.dfy`: `Option`, standing for a Python value that may be `None`.
- `text.dfy`: the string behaviour the class relies on:
  - Python's `str.isspace`, `lstrip`, `rstrip` and `strip`;
  - the `is not None and x.strip() != ''` guard of the setters;
  - Python truthiness of a string;
  - `str()` of a string or `None`;
  - `re.sub(r':', '', s)`.
- `graph.dfy`: the external collaborators:
  - the vocabulary as a record of identifiers (`Vocabulary`);
  - the statement records (`Statement`);
  - the graph sink as a class whose only state is the sequence of statements written to it.
- `g2p_assoc.dfy`:
  - the class `G2PAssoc`, with a field for each attribute the source keeps;
  - its setters and the materialising method;
  - the pure pieces: the stage guard, the blank-node identifier and the statement blocks;
  - the lemmas about them.
- `scenarios.dfy`: whole call sequences against a fresh graph (construct, qualify, identify,
  materialise) and what the graph then holds.

Collaborators the source calls but does not define become parameters:
- The identifier primitive `make_association_id` becomes a function-typed constant
  `makeAssociationId`, passed to the constructor. It is any function of its arguments, so the
  identifier is deterministic, and the order of the tuple is visible in the contracts.
- The vocabulary lookup `globaltt` and the Biolink category tags become a `Vocabulary`
  value passed to the constructor. Lemmas that must tell two tokens apart require
  `Vocabulary.Distinct()`.
- Python's keyword defaults (`rel=None`, the two category defaults and the two category
  overrides) are Dafny default parameter values.

Behaviour of the code that the model keeps as written:

- The stage guard is `start is truthy or end is not None`, as written. On objects whose
  fields only the setters changed, it is the same as "some bound is set"
  (`StageExpandsOnQualifiers`, `StageBlockIffBoundSet`).
- The stage-process node is not collision-free: removing colons merges `prefix:local` with
  `prefixlocal` (`StageProcessIdCollision`).
- `AddAssociationToGraph` has no precondition: the model checks nothing and writes whatever
  `assocId` holds. What the base routine does with an unset identifier is not modelled (see
  "Left out").
- Whether different identifier inputs give different identifiers depends on the primitive,
  which is not part of this model; `G2PIdSeparates` proves it for an injective primitive.

## Model

| member | source | states |
|---|---|---|
| `Text.TrimStartSpec` | dipper/models/assoc/G2PAssoc.py:51 | what `lstrip` leaves is the suffix of the input starting at its first non-whitespace character; everything before it is whitespace |
| `Text.TrimEndSpec` | dipper/models/assoc/G2PAssoc.py:51 | what `rstrip` leaves is the prefix of the input ending at its last non-whitespace character; everything after it is whitespace |
| `Text.StripSpec` | dipper/models/assoc/G2PAssoc.py:51 | the stripped string is a contiguous part of the input with only whitespace before and after it, and is empty or neither starts nor ends with whitespace |
| `Text.BlankIffAllWhitespace` | dipper/models/assoc/G2PAssoc.py:51-54 | `s.strip() == ''` holds exactly when every character of `s` is whitespace |
| `Text.ProvidedIff` | dipper/models/assoc/G2PAssoc.py:58 | the setters' guard holds exactly when the argument is not `None` and has a non-whitespace character |
| `Text.ProvidedIsTruthy` | dipper/models/assoc/G2PAssoc.py:98 | a value that passes the setters' guard is truthy; a whitespace-only string is truthy but does not pass the guard |
| `Text.RemoveColonsDropsColons` | dipper/models/assoc/G2PAssoc.py:101 | `re.sub(r':', '', s)` leaves no colon and never lengthens `s` |
| `Text.RemoveColonsAppend` | dipper/models/assoc/G2PAssoc.py:101 | colon removal distributes over concatenation |
| `Text.RemoveColonsIdentity` | dipper/models/assoc/G2PAssoc.py:101 | colon removal leaves a string unchanged exactly when it has no colon |
| `Text.RemoveColonsKeepsOthers` | dipper/models/assoc/G2PAssoc.py:101 | every character other than a colon occurs as often after removal as before |
| `Text.TrimStart` | dipper/models/assoc/G2PAssoc.py:51 | `s.lstrip()`, the first half of `strip`; its meaning is stated by `Text.TrimStartSpec` |
| `Text.TrimEnd` | dipper/models/assoc/G2PAssoc.py:51 | `s.rstrip()`, the second half of `strip`; its meaning is stated by `Text.TrimEndSpec` |
| `Text.IsBlank` | dipper/models/assoc/G2PAssoc.py:51-53 | `s.strip() == ''`; its meaning is stated by `Text.BlankIffAllWhitespace` |
| `Text.Provided` | dipper/models/assoc/G2PAssoc.py:51-58 | the setters' guard `v is not None and v.strip() != ''`; its meaning is stated by `Text.ProvidedIff` |
| `Text.Truthy` | dipper/models/assoc/G2PAssoc.py:98 | Python truthiness of a string or `None`: present and non-empty; related to the guard by `Text.ProvidedIsTruthy` |
| `Text.Strip` | dipper/models/assoc/G2PAssoc.py:51 | `s.strip()`: `rstrip` of `lstrip` of `s`; its meaning is stated by `Text.StripSpec` |
| `Text.PyStr` | dipper/models/assoc/G2PAssoc.py:99-100 | `str()` of a string or `None`: the string itself, or `None` |
| `Text.RemoveColons` | dipper/models/assoc/G2PAssoc.py:101 | `re.sub(r':', '', s)`; its meaning is stated by the `Text.RemoveColons*` lemmas |
| `G2P.StageExpands` | dipper/models/assoc/G2PAssoc.py:98 | the guard `start_stage_id or end_stage_id is not None`, start tested for truthiness and end for presence |
| `G2P.StageStatements` | dipper/models/assoc/G2PAssoc.py:98-119 | the stage block written when the guard holds: node declaration, "starts during", "ends during", qualifier link; empty otherwise (see `G2P.StageExpansion`, `G2P.StageLinks`) |
| `G2P.EnvironmentStatements` | dipper/models/assoc/G2PAssoc.py:121-124 | the environment link written when an environment is set (see `G2P.EnvironmentLinks`) |
| `G2P.ResolveCategory` | dipper/models/assoc/G2PAssoc.py:88-91 | `x if x is not None else stored`: the category passed in, or the stored one when none is passed (see `G2P.EmissionLayout`) |
| `G2P.G2PAssoc.Attributes` | dipper/models/assoc/G2PAssoc.py:142 | the qualifier list `[environment_id, start_stage_id, end_stage_id]` in that order, as passed to the identifier primitive |
| `G2P.G2PAssoc.MakeG2PId` | dipper/models/assoc/G2PAssoc.py:127-146 | `make_g2p_id`: the primitive over (source, subject, relation, object, [environment, start, end]) in that order (see `G2P.G2PIdDeterministic`, `G2P.G2PIdSeparates`) |
| `G2P.G2PAssoc.Emission` | dipper/models/assoc/G2PAssoc.py:88-124 | one materialisation writes one to six statements; the first is the reified association of this subject, relation, object and identifier, and no later statement is an association (see `G2P.EmissionLayout`, `G2P.EmissionLinkCounts` for the rest) |
| `Graph.Graph.AddTriple` | dipper/models/assoc/G2PAssoc.py:106-124 | writing a triple appends exactly that triple record, keeping everything already written |
| `Graph.Graph.AddIndividual` | dipper/models/assoc/G2PAssoc.py:102-104 | declaring an individual appends exactly that record, keeping everything already written |
| `Graph.Graph.AddAssociation` | dipper/models/assoc/G2PAssoc.py:93-95 | the base routine's primary statement is appended, keeping everything already written |
| `G2P.StageExpandsOnQualifiers` | dipper/models/assoc/G2PAssoc.py:98 | on unset-or-non-blank bounds, the guard "start truthy or end not None" holds exactly when some bound is set |
| `G2P.StageGuardAsymmetry` | dipper/models/assoc/G2PAssoc.py:98 | an empty start alone does not trigger the stage block; an empty end alone does |
| `G2P.StageProcessId` | dipper/models/assoc/G2PAssoc.py:99-101 | the stage-process identifier starts with `_:` and contains no other colon |
| `G2P.StageProcessIdParts` | dipper/models/assoc/G2PAssoc.py:99-101 | the identifier is `_:`, then the start's text without colons, a dash, and the end's text without colons; an unset bound reads `None` |
| `G2P.StageProcessIdVerbatim` | dipper/models/assoc/G2PAssoc.py:99-101 | for bounds without colons the identifier is exactly `'_:' + str(start) + '-' + str(end)` |
| `G2P.CurieColonRemoved` | dipper/models/assoc/G2PAssoc.py:101 | a CURIE `prefix:local` with colon-free parts loses exactly its separating colon |
| `G2P.StageProcessIdOfCuries` | dipper/models/assoc/G2PAssoc.py:99-101 | for CURIE bounds the node is `_:` followed by both CURIEs without their colons, joined by a dash |
| `G2P.StageProcessIdCollision` | dipper/models/assoc/G2PAssoc.py:99-101 | the distinct bounds `prefix:local` and `prefixlocal` give the same stage-process identifier |
| `G2P.G2PAssoc.constructor` | dipper/models/assoc/G2PAssoc.py:26-48 | subject, object, source and categories are stored as given; the relation is "has phenotype" unless one is given; no qualifier, stage node or identifier is set; the qualifier invariant holds |
| `G2P.G2PAssoc.SetStage` | dipper/models/assoc/G2PAssoc.py:50-55 | each bound is overwritten exactly when its argument is not `None` and not blank, and is kept otherwise; a set bound is never cleared; only the two bounds may change; the qualifier invariant is kept |
| `G2P.G2PAssoc.SetEnvironment` | dipper/models/assoc/G2PAssoc.py:57-61 | the environment is overwritten exactly when the argument is not `None` and not blank, and is never cleared; only the environment may change; the qualifier invariant is kept |
| `G2P.G2PAssoc.SetAssociationId` | dipper/models/assoc/G2PAssoc.py:63-70 | an explicit identifier is stored verbatim whatever the state; without one, the identifier is the primitive applied to (source, subject, relation, object, [environment, start, end]) in that order; only the identifier changes; the qualifier invariant is kept |
| `G2P.G2PAssoc.EmitPrimary` | dipper/models/assoc/G2PAssoc.py:93-95 | the base routine appends one primary statement carrying the association's subject, relation, object, source, identifier and the categories it is given |
| `G2P.G2PAssoc.AddAssociationToGraph` | dipper/models/assoc/G2PAssoc.py:72-125 | the graph keeps everything it held and gains exactly `Emission(...)`: the primary statement with the resolved categories, then the stage block, then the environment link; the stage-process node is recorded exactly when the stage block is written, and is otherwise left as it was; only that field and the graph change; the qualifier invariant is kept |
| `G2P.G2PIdDeterministic` | dipper/models/assoc/G2PAssoc.py:127-146 | two associations with the same primitive and equal values in all seven positions derive the same identifier |
| `G2P.G2PIdSeparates` | dipper/models/assoc/G2PAssoc.py:142-146 | with an injective primitive, associations that differ in any of the seven positions, including which qualifier slot holds a value, derive different identifiers |
| `G2P.StageBlockIffBoundSet` | dipper/models/assoc/G2PAssoc.py:98-119 | on a valid association the stage block is non-empty exactly when a start or an end stage is set |
| `G2P.EmissionLayout` | dipper/models/assoc/G2PAssoc.py:88-95 | the primary statement comes first, carrying the association's identifier and source; each category is the override argument when given and the stored category otherwise; the stage block adds four statements and the environment one |
| `G2P.StageExpansion` | dipper/models/assoc/G2PAssoc.py:98-119 | when the guard holds, statements 1 to 4 are, in order: the node's declaration, "starts during" to the start bound, "ends during" to the end bound (each written even if its bound is unset), and the link from the association to the node |
| `G2P.NoQualifiersOnlyPrimary` | dipper/models/assoc/G2PAssoc.py:98-125 | with no stage block and no environment, only the primary statement is written |
| `G2P.StageLinks` | dipper/models/assoc/G2PAssoc.py:98-119 | the stage block has one stage link, one "starts during" and one "ends during" triple when the guard holds, none otherwise, and never an environment link |
| `G2P.EnvironmentLinks` | dipper/models/assoc/G2PAssoc.py:121-124 | the environment block is exactly the triple (association id, has qualifier, environment) with the Environment category when an environment is set, and empty otherwise; it holds no other kind of triple |
| `G2P.EmissionEnvironmentLink` | dipper/models/assoc/G2PAssoc.py:121-124 | with an environment set, the last statement written is the link from the association to that environment with the Environment category; without one, everything after the primary statement is the stage block |
| `G2P.EmissionLinkCounts` | dipper/models/assoc/G2PAssoc.py:93-124 | in a whole emission there is one environment link exactly when an environment is set, and one stage link, one "starts during" and one "ends during" triple exactly when the stage guard holds |
| `G2P.EmissionAnchors` | dipper/models/assoc/G2PAssoc.py:106-124 | every `has_qualifier` triple has the association's identifier as subject; every other triple has the stage-process node as subject |
| `Scenarios.PlainAssociation` | dipper/models/assoc/G2PAssoc.py:26-125 | source `MGI:test`, subject `MGI:1`, object `HP:0001250`, no qualifiers: the graph receives exactly the primary statement, tagged Genotype / PhenotypicFeature, with the identifier derived from `[None, None, None]` |
| `Scenarios.StagedAssociation` | dipper/models/assoc/G2PAssoc.py:50-119 | with a provided stage range, the graph receives the primary statement and then the four stage statements, and the range is part of the derived identifier |
| `Scenarios.StartOnlyAssociation` | dipper/models/assoc/G2PAssoc.py:98-119 | with only a start stage, five statements are written: the primary statement whose identifier derives from the start alone, the node declaration, the "starts during" triple to the start, the "ends during" triple without object, and the qualifier link; the node is `_:` + the start without colons + `-None` |
| `Scenarios.EnvironmentAssociation` | dipper/models/assoc/G2PAssoc.py:57-124 | an explicit identifier and an environment give exactly the primary statement and one environment link from that identifier |
| `Scenarios.BlankQualifiersIgnored` | dipper/models/assoc/G2PAssoc.py:50-91 | blank stage bounds and a blank environment are ignored, and a given subject category overrides the stored one: only the primary statement is written |

## Left out

- The base class `Assoc` (`dipper/models/assoc/Association.py`) is not part of this model:
  - its `add_association_to_graph` is one `Association` record appended to the graph;
  - its `set_subject`, `set_object` and `set_relationship` are direct field stores;
  - its `__init__` is assumed to leave the identifier unset;
  - any checks it makes (an unset identifier, an unset subject) are not modelled.
- `make_association_id` is not part of this model. Its hashing and collision behaviour are
  not modelled; the primitive is an arbitrary function.
- `Model.addIndividualToGraph` and `Graph.addTriple` are foreign calls. Each is one record
  appended to a sequence, so the triples they expand into and the graph storage are not
  modelled. Write failures are not modelled either.
- The contents of the `globaltt` translation table and the Biolink vocabulary are external
  data. They are parameters of the model, not the actual identifiers.
- Logging (`LOG`) has no effect and is not modelled.
- Attributes may hold only strings or `None`. Python would let a caller store other values
  (for example, a non-string stage passed to `set_stage` would raise on `.strip()`); that is
  not modelled.
- The class has no explicit lifecycle state (building, identified, materialised), so the
  model adds none: the methods may be called in any order, as in the source.
- Concurrent use, persistence and serialisation formats are not part of this class.
