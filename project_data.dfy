/** The values the project list works with (src/App.js): what the store hands
    back, the project records built from it, the five-field draft of the
    shared modal form, and the object a submit sends to the store. */
module ProjectData {

  datatype Option<+T> = None | Some(value: T)

  /** A JavaScript value as the page sees it. The store holds strings,
      numbers, booleans and nested objects; reading a property an object
      does not have gives `undefined`. */
  datatype Value =
    | Str(s: string)
    | Num(n: int)
    | Bool(b: bool)
    | Obj(fields: map<string, Value>)
    | Undefined

  /** A plain JavaScript object: property names to values. Snapshot
      children, project records and request bodies are all objects. */
  type Object = map<string, Value>

  /** Property access `o.f`. */
  function Get(o: Object, f: string): Value
  {
    if f in o then o[f] else Undefined
  }

  /** The five fields of the draft, named as the form inputs name them. */
  datatype Field = ProjectName | MakerEmail | Description | ProjectLink | Guide

  /** The property a draft field is stored under in a project record: the
      draft says `projectName` and `projectLink` where the record says
      `name` and `link`. */
  function RecordKey(f: Field): string
  {
    match f
    case ProjectName => "name"
    case MakerEmail => "makerEmail"
    case Description => "description"
    case ProjectLink => "link"
    case Guide => "guide"
  }

  /** The properties of a project record that the form edits. */
  const RECORD_KEYS: set<string> := {"name", "makerEmail", "description", "link", "guide"}

  /** The draft form state `formData`. */
  datatype Draft = Draft(projectName: Value, makerEmail: Value, description: Value,
                         projectLink: Value, guide: Value)
  {
    function Get(f: Field): Value
    {
      match f
      case ProjectName => projectName
      case MakerEmail => makerEmail
      case Description => description
      case ProjectLink => projectLink
      case Guide => guide
    }

    /** `{...formData, [name]: value}`: the named field takes the new value
        and every other field keeps its own. */
    function With(f: Field, v: Value): (d: Draft)
      ensures d.Get(f) == v
      ensures forall g :: g != f ==> d.Get(g) == Get(g)
    {
      match f
      case ProjectName => this.(projectName := v)
      case MakerEmail => this.(makerEmail := v)
      case Description => this.(description := v)
      case ProjectLink => this.(projectLink := v)
      case Guide => this.(guide := v)
    }
  }

  /** The draft every field of which is the empty string. */
  const EMPTY_DRAFT: Draft := Draft(Str(""), Str(""), Str(""), Str(""), Str(""))

  /** The draft that opening a record for editing fills in: each draft
      field copies the record property it is renamed from, verbatim. */
  function DraftOf(p: Object): (d: Draft)
    ensures forall f :: d.Get(f) == Get(p, RecordKey(f))
  {
    Draft(Get(p, "name"), Get(p, "makerEmail"), Get(p, "description"),
          Get(p, "link"), Get(p, "guide"))
  }

  /** The object both submit handlers send: exactly the five record
      properties, each holding the draft field renamed to it. */
  function PayloadOf(d: Draft): (e: Object)
    ensures e.Keys == RECORD_KEYS
    ensures forall f :: RecordKey(f) in e && e[RecordKey(f)] == d.Get(f)
  {
    map["name" := d.projectName, "makerEmail" := d.makerEmail,
        "description" := d.description, "link" := d.projectLink, "guide" := d.guide]
  }

  /** Opening a record for editing and sending the draft unchanged sends the
      record's own five properties (undefined where the record lacks one). */
  lemma EditPayload(p: Object)
    ensures PayloadOf(DraftOf(p)) == map k | k in RECORD_KEYS :: Get(p, k)
  {
  }

  /** For a record that has all five properties, that is the record itself
      cut down to those properties. */
  lemma EditPayloadComplete(p: Object)
    requires RECORD_KEYS <= p.Keys
    ensures PayloadOf(DraftOf(p)) == map k | k in RECORD_KEYS :: p[k]
  {
  }
}
