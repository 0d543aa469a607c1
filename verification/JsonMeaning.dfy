/** The values that JSON texts denote, as `serde_json::Value` keeps them: numbers by lexeme,
    objects as maps in which the last of several members with one name wins. */
module JsonMeaning {
  import opened Options
  import opened JsonGrammar

  datatype Json =
    | Null
    | Bool(b: bool)
    | Number(lexeme: string)
    | String(s: string)
    | List(items: seq<Json>)
    | Dict(members: map<string, Json>)

  function Denote(v: Value): Json
    requires WellFormed(v)
  {
    match v
    case Literal(lexeme) =>
      if lexeme == "null" then Null
      else if lexeme == "true" then Bool(true)
      else if lexeme == "false" then Bool(false)
      else Number(lexeme)
    case Text(raw) => String(Decode(raw).value)
    case Array(_, items) => List(DenoteItems(items))
    case Object(_, members) => Dict(DenoteMembers(members))
  }

  function DenoteItems(items: Items): seq<Json>
    requires WellFormedItems(items)
  {
    match items
    case NoItems => []
    case Item(_, value, _, rest) => [Denote(value)] + DenoteItems(rest)
  }

  function DenoteMembers(ms: Members): map<string, Json>
    requires WellFormedMembers(ms)
  {
    match ms
    case NoMembers => map[]
    case Member(_, key, _, _, value, _, rest) =>
      var later := DenoteMembers(rest);
      var name := Decode(key).value;
      if name in later then later else later[name := Denote(value)]
  }

  /** How many members carry the name. */
  function Occurrences(ms: Members, name: string): nat
    requires WellFormedMembers(ms)
  {
    if ms.NoMembers? then 0
    else (if Decode(ms.key).value == name then 1 else 0) + Occurrences(ms.rest, name)
  }

  lemma {:induction false} OccursIffDenoted(ms: Members, name: string)
    requires WellFormedMembers(ms)
    ensures Occurrences(ms, name) > 0 <==> name in DenoteMembers(ms)
  {
    if ms.Member? { OccursIffDenoted(ms.rest, name); }
  }
}
