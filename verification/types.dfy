/**
 * The records shared by the viewer, the application shell and the seed
 * catalog: a shape model, its parameter map and the chat messages.
 */
module Types {

  datatype Option<T> = None | Some(value: T)

  /** A parameter value is either a number or a string (a colour, a text). */
  datatype ParamValue = Num(n: real) | Str(s: string)

  /** The open, string-keyed parameter mapping of a shape model. */
  type Params = map<string, ParamValue>

  /**
   * A shape model. The source calls the tag field `type`, which is a
   * keyword here, so it is `typeTag`.
   */
  datatype ModelDef = ModelDef(name: string, typeTag: string, params: Params, thumbnail: string)

  datatype Role = User | Model

  datatype ChatMessage = ChatMessage(role: Role, text: string)

  /** No two entries of a model list share a name. */
  predicate NamesDistinct(models: seq<ModelDef>)
  {
    forall i, j :: 0 <= i < j < |models| ==> models[i].name != models[j].name
  }

  /** The names of a model list. */
  function Names(models: seq<ModelDef>): set<string>
  {
    set m | m in models :: m.name
  }
}
