/** Queued actions and their versioned payload: what is written, and what a strict read accepts. */
module CodecModel {
  import opened Wrappers
  import opened Entities
  import opened Text
  import opened Base32

  /** A parsed JSON value; `Fraction` stands for every number that is no integer. */
  datatype Json =
    | Null
    | Bool(holds: bool)
    | Number(n: int)
    | Fraction(digits: string)
    | Text(text: string)
    | List(items: seq<Json>)
    | Record(members: Members)

  type Members = map<string, Json>

  type Seq = x: int | -0x8000_0000_0000_0000 <= x < 0x8000_0000_0000_0000

  datatype Supersedes = Supersedes(collection: Collection, seqno: Seq)

  datatype Action =
    | Add(link: Option<LinkId>, flags: Flags, body: Option<Hash>, supersedes: Option<Supersedes>)
    | SetFlags(seqno: Seq, flags: Flags)
    | Remove(seqno: Seq)
    | Move(seqno: Seq, to: Collection)
    | Copy(seqno: Seq, to: Collection)
    | Update(seqno: Seq, newBody: Hash, ifMatch: Option<Hash>, resolves: Option<seq<Hash>>)
    | SetPerformer(capability: string, source: Option<Source>)
    | Intent(kind: string, payload: Json, pinned: Option<Hash>)

  function KindOf(action: Action): string {
    match action
    case Add(_, _, _, _) => "add"
    case SetFlags(_, _) => "set-flags"
    case Remove(_) => "remove"
    case Move(_, _) => "move"
    case Copy(_, _) => "copy"
    case Update(_, _, _, _) => "update"
    case SetPerformer(_, _) => "set-performer"
    case Intent(kind, _, _) => kind
  }

  /** The rule a member breaks. */
  datatype Rule = IsText | IsLabel | IsSeq | IsObjectName | AreObjectNames | AreFlags | IsSuperseded | IsCapability

  datatype Error =
    | NotAnObject
    | UnknownVersion(version: Option<Seq>)
    | MissingField(field: string)
    | UnknownField(field: string)
    | Invalid(field: string, rule: Rule)

  // ---------- Writing ----------

  function TextsOf(texts: seq<string>): (items: seq<Json>)
    ensures |items| == |texts| && forall i :: 0 <= i < |items| ==> items[i] == Text(texts[i])
  {
    seq(|texts|, i requires 0 <= i < |texts| => Text(texts[i]))
  }

  function FlagsValue(flags: Flags): Json {
    if flags.Known? then List(TextsOf(Ascending(flags.marks))) else Null
  }

  function TextValue(text: Option<string>): Option<Json> {
    if text.Some? then Some(Text(text.value)) else None
  }

  function SupersedesValue(supersedes: Option<Supersedes>): Option<Json> {
    if supersedes.Some? then
      Some(Record(map["collection" := Text(supersedes.value.collection), "seq" := Number(supersedes.value.seqno)]))
    else None
  }

  function NamesValue(names: Option<seq<Hash>>): Option<Json> {
    if names.Some? then Some(List(TextsOf(names.value))) else None
  }

  function With(members: Members, name: string, value: Option<Json>): Members {
    if value.Some? then members[name := value.value] else members
  }

  const VERSION: Members := map["v" := Number(1)]

  function MembersOf(action: Action): Members
    requires !action.Intent?
  {
    match action
    case Add(link, flags, body, supersedes) =>
      With(With(With(VERSION, "link_id", TextValue(link))["flags" := FlagsValue(flags)], "object", TextValue(body)),
        "supersedes", SupersedesValue(supersedes))
    case SetFlags(seqno, flags) => VERSION["seq" := Number(seqno)]["flags" := FlagsValue(flags)]
    case Remove(seqno) => VERSION["seq" := Number(seqno)]
    case Move(seqno, to) => VERSION["seq" := Number(seqno)]["to" := Text(to)]
    case Copy(seqno, to) => VERSION["seq" := Number(seqno)]["to" := Text(to)]
    case Update(seqno, newBody, ifMatch, resolves) =>
      With(With(VERSION["seq" := Number(seqno)]["object" := Text(newBody)], "if_match", TextValue(ifMatch)),
        "resolves", NamesValue(resolves))
    case SetPerformer(capability, source) =>
      With(VERSION["capability" := Text(capability)], "source", TextValue(source))
  }

  function Encode(action: Action): Json {
    if action.Intent? then action.payload else Record(MembersOf(action))
  }

  // ---------- Reading a member ----------

  function Get(members: Members, name: string): Option<Json> {
    if name in members then Some(members[name]) else None
  }

  function AsSeq(value: Json): Option<Seq> {
    if value.Number? && -0x8000_0000_0000_0000 <= value.n < 0x8000_0000_0000_0000 then Some(value.n) else None
  }

  function Required<T>(value: Option<T>, field: string): Result<T, Error> {
    if value.Some? then Ok(value.value) else Err(MissingField(field))
  }

  function TextIn(value: Option<Json>, field: string): Result<Option<string>, Error> {
    match value
    case None => Ok(None)
    case Some(Text(text)) => Ok(Some(text))
    case Some(_) => Err(Invalid(field, IsText))
  }

  function LabelIn(value: Option<Json>, field: string): Result<Option<string>, Error> {
    var text :- TextIn(value, field);
    if text == Some("") then Err(Invalid(field, IsLabel)) else Ok(text)
  }

  function SeqIn(value: Option<Json>, field: string): Result<Option<Seq>, Error> {
    if value.None? then Ok(None)
    else
      var n := AsSeq(value.value);
      if n.Some? && n.value >= 1 then Ok(n) else Err(Invalid(field, IsSeq))
  }

  function HashIn(value: Option<Json>, field: string): Result<Option<Hash>, Error> {
    var name :- TextIn(value, field);
    if name.Some? && !IsName(name.value) then Err(Invalid(field, IsObjectName)) else Ok(name)
  }

  /** The names of an array, up to its first that is none or comes twice. */
  function NamesIn(items: seq<Json>, field: string): Result<seq<Hash>, Error> {
    if items == [] then Ok([])
    else
      var names :- NamesIn(items[..|items| - 1], field);
      var read :- HashIn(Some(items[|items| - 1]), field);
      var name :- Required(read, field);
      if name in names then Err(Invalid(field, AreObjectNames)) else Ok(names + [name])
  }

  function HashesIn(value: Option<Json>, field: string): Result<Option<seq<Hash>>, Error> {
    match value
    case None => Ok(None)
    case Some(List(items)) =>
      if items == [] then Err(Invalid(field, AreObjectNames))
      else
        var names :- NamesIn(items, field);
        Ok(Some(names))
    case Some(_) => Err(Invalid(field, AreObjectNames))
  }

  predicate IsFlag(flag: string) {
    flag != "" && forall i | 0 <= i < |flag| :: '!' <= flag[i] <= '~'
  }

  function MarksIn(items: seq<Json>, field: string): Result<set<string>, Error> {
    if items == [] then Ok({})
    else
      var marks :- MarksIn(items[..|items| - 1], field);
      var item := items[|items| - 1];
      if item.Text? && IsFlag(item.text) && item.text !in marks then Ok(marks + {item.text})
      else Err(Invalid(field, AreFlags))
  }

  function FlagsIn(value: Option<Json>, field: string): Result<Option<Flags>, Error> {
    match value
    case None => Ok(None)
    case Some(List(items)) =>
      var marks :- MarksIn(items, field);
      Ok(Some(Known(marks)))
    case Some(_) => Err(Invalid(field, AreFlags))
  }

  function SupersedesIn(value: Option<Json>): Result<Option<Supersedes>, Error> {
    match value
    case None => Ok(None)
    case Some(Record(inner)) =>
      var undefined := inner.Keys - {"collection", "seq"};
      if undefined != {} then Err(UnknownField("supersedes." + Least(undefined)))
      else
        var collection :- LabelIn(Get(inner, "collection"), "supersedes.collection");
        var seqno :- SeqIn(Get(inner, "seq"), "supersedes.seq");
        var named :- Required(collection, "supersedes.collection");
        var numbered :- Required(seqno, "supersedes.seq");
        Ok(Some(Supersedes(named, numbered)))
    case Some(_) => Err(Invalid("supersedes", IsSuperseded))
  }

  // ---------- Capability names ----------

  function FirstWord(name: string): (word: string)
    ensures word <= name && '.' !in word && (|word| == |name| || name[|word|] == '.')
  {
    if name == "" || name[0] == '.' then "" else [name[0]] + FirstWord(name[1..])
  }

  predicate IsWord(word: string) {
    word != "" && forall i | 0 <= i < |word| :: 'a' <= word[i] <= 'z' || '0' <= word[i] <= '9' || word[i] == '-'
  }

  /** Words joined by single periods. */
  predicate AreWords(name: string) {
    var word := FirstWord(name);
    IsWord(word) && (|word| < |name| ==> AreWords(name[|word| + 1..]))
  }

  predicate IsCapabilityName(name: string) {
    AreWords(name) && 'a' <= name[0] <= 'z'
  }

  // ---------- Reading a payload ----------

  function AnyMembers(payload: Json): Result<Members, Error> {
    if !payload.Record? then Err(NotAnObject)
    else
      var version := if "v" in payload.members then AsSeq(payload.members["v"]) else None;
      if version != Some(1) then Err(UnknownVersion(version)) else Ok(payload.members)
  }

  function DefinedMembers(payload: Json, defined: set<string>): Result<Members, Error> {
    var members :- AnyMembers(payload);
    var undefined := members.Keys - {"v"} - defined;
    if undefined != {} then Err(UnknownField(Least(undefined))) else Ok(members)
  }

  function DecodeAdd(payload: Json): Result<Action, Error> {
    var m :- DefinedMembers(payload, {"link_id", "flags", "object", "supersedes"});
    var link :- LabelIn(Get(m, "link_id"), "link_id");
    var stated :- FlagsIn(Get(m, "flags"), "flags");
    var flags :- Required(stated, "flags");
    var named :- HashIn(Get(m, "object"), "object");
    var body :- Required(named, "object");
    var supersedes :- SupersedesIn(Get(m, "supersedes"));
    Ok(Add(link, flags, Some(body), supersedes))
  }

  function DecodeSetFlags(payload: Json): Result<Action, Error> {
    var m :- DefinedMembers(payload, {"seq", "flags"});
    var numbered :- SeqIn(Get(m, "seq"), "seq");
    var seqno :- Required(numbered, "seq");
    var stated :- FlagsIn(Get(m, "flags"), "flags");
    var flags :- Required(stated, "flags");
    Ok(SetFlags(seqno, flags))
  }

  function DecodeRemove(payload: Json): Result<Action, Error> {
    var m :- DefinedMembers(payload, {"seq"});
    var numbered :- SeqIn(Get(m, "seq"), "seq");
    var seqno :- Required(numbered, "seq");
    Ok(Remove(seqno))
  }

  function DecodeRefile(kind: string, payload: Json): Result<Action, Error> {
    var m :- DefinedMembers(payload, {"seq", "to"});
    var numbered :- SeqIn(Get(m, "seq"), "seq");
    var seqno :- Required(numbered, "seq");
    var named :- LabelIn(Get(m, "to"), "to");
    var to :- Required(named, "to");
    Ok(if kind == "move" then Move(seqno, to) else Copy(seqno, to))
  }

  function DecodeUpdate(payload: Json): Result<Action, Error> {
    var m :- DefinedMembers(payload, {"seq", "object", "if_match", "resolves"});
    var numbered :- SeqIn(Get(m, "seq"), "seq");
    var seqno :- Required(numbered, "seq");
    var named :- HashIn(Get(m, "object"), "object");
    var newBody :- Required(named, "object");
    var ifMatch :- HashIn(Get(m, "if_match"), "if_match");
    var resolves :- HashesIn(Get(m, "resolves"), "resolves");
    Ok(Update(seqno, newBody, ifMatch, resolves))
  }

  function DecodeSetPerformer(payload: Json): Result<Action, Error> {
    var m :- DefinedMembers(payload, {"capability", "source"});
    var named :- TextIn(Get(m, "capability"), "capability");
    var capability :- Required(named, "capability");
    if !IsCapabilityName(capability) then Err(Invalid("capability", IsCapability))
    else
      var source :- LabelIn(Get(m, "source"), "source");
      Ok(SetPerformer(capability, source))
  }

  /** The intent kinds whose payload is read by a reader of their own. */
  const INTENTS := {"submit", "calendar-reply", "calendar-cancel", "collection-create", "collection-rename",
    "collection-delete"}

  /** The strict read; `faults` answers what an intent's own reader finds wrong. */
  function Decode(kind: string, payload: Json, faults: (string, Json) -> Option<Error>): Result<Action, Error> {
    match kind
    case "add" => DecodeAdd(payload)
    case "set-flags" => DecodeSetFlags(payload)
    case "remove" => DecodeRemove(payload)
    case "move" => DecodeRefile(kind, payload)
    case "copy" => DecodeRefile(kind, payload)
    case "update" => DecodeUpdate(payload)
    case "set-performer" => DecodeSetPerformer(payload)
    case _ =>
      if kind in INTENTS then
        if faults(kind, payload).Some? then Err(faults(kind, payload).value) else Ok(Intent(kind, payload, None))
      else
        var _ :- AnyMembers(payload);
        Ok(Intent(kind, payload, None))
  }
}
