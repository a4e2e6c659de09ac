/** The payload writer and the array readers as the source runs them, and the round trip. */
module Codec {
  import opened Wrappers
  import opened Entities
  import opened Text
  import Base32
  import opened CodecModel

  method ActionToPayload(action: Action) returns (payload: Json)
    ensures payload == Encode(action)
  {
    if action.Intent? {
      return action.payload;
    }
    var m: Members := map[];
    m := m["v" := Number(1)];
    assert m == VERSION;
    match action {
      case Add(link, flags, body, supersedes) =>
        if link.Some? {
          m := m["link_id" := Text(link.value)];
        }
        m := m["flags" := FlagsValue(flags)];
        if body.Some? {
          m := m["object" := Text(body.value)];
        }
        if supersedes.Some? {
          var named := map["collection" := Text(supersedes.value.collection), "seq" := Number(supersedes.value.seqno)];
          m := m["supersedes" := Record(named)];
        }
      case SetFlags(seqno, flags) =>
        m := m["seq" := Number(seqno)];
        m := m["flags" := FlagsValue(flags)];
      case Remove(seqno) =>
        m := m["seq" := Number(seqno)];
      case Move(seqno, to) =>
        m := m["seq" := Number(seqno)];
        m := m["to" := Text(to)];
      case Copy(seqno, to) =>
        m := m["seq" := Number(seqno)];
        m := m["to" := Text(to)];
      case Update(seqno, newBody, ifMatch, resolves) =>
        m := m["seq" := Number(seqno)];
        m := m["object" := Text(newBody)];
        if ifMatch.Some? {
          m := m["if_match" := Text(ifMatch.value)];
        }
        if resolves.Some? {
          m := m["resolves" := List(TextsOf(resolves.value))];
        }
      case SetPerformer(capability, source) =>
        m := m["capability" := Text(capability)];
        if source.Some? {
          m := m["source" := Text(source.value)];
        }
    }
    payload := Record(m);
  }

  // ---------- Arrays ----------

  ghost predicate Distinct(texts: seq<string>) {
    forall i, j :: 0 <= i < j < |texts| ==> texts[i] != texts[j]
  }

  ghost predicate All(rule: string -> bool, texts: seq<string>) {
    forall i :: 0 <= i < |texts| ==> rule(texts[i])
  }

  lemma AppendDistinct(texts: seq<string>, last: string)
    ensures Distinct(texts + [last]) <==> Distinct(texts) && last !in texts
    ensures forall rule :: All(rule, texts + [last]) <==> All(rule, texts) && rule(last)
  {
    var longer := texts + [last];
    if Distinct(longer) {
      forall i, j | 0 <= i < j < |texts|
        ensures texts[i] != texts[j]
      {
        assert longer[i] != longer[j];
      }
      forall i | 0 <= i < |texts|
        ensures texts[i] != last
      {
        assert longer[i] != longer[|texts|];
      }
    }
    forall rule
      ensures All(rule, longer) <==> All(rule, texts) && rule(last)
    {
      if All(rule, longer) {
        assert rule(longer[|texts|]);
        assert forall i :: 0 <= i < |texts| ==> texts[i] == longer[i];
      }
    }
  }

  /** Reading an array of names accepts exactly distinct names, and loses none. */
  lemma {:induction false} NamesAccepted(items: seq<Json>, field: string)
    ensures NamesIn(items, field).Ok? ==>
      var names := NamesIn(items, field).value; items == TextsOf(names) && Distinct(names) && All(Base32.IsName, names)
  {
    if items != [] {
      var init := items[..|items| - 1];
      NamesAccepted(init, field);
      if NamesIn(items, field).Ok? {
        var names, last := NamesIn(init, field).value, items[|items| - 1];
        AppendDistinct(names, last.text);
        assert items == init + [last];
        assert TextsOf(names + [last.text]) == TextsOf(names) + [last];
      }
    }
  }

  lemma {:induction false} NamesRead(names: seq<Hash>, field: string)
    requires Distinct(names) && All(Base32.IsName, names)
    ensures NamesIn(TextsOf(names), field) == Ok(names)
  {
    if names != [] {
      var init, last := names[..|names| - 1], names[|names| - 1];
      assert names == init + [last];
      AppendDistinct(init, last);
      NamesRead(init, field);
      assert TextsOf(names)[..|names| - 1] == TextsOf(init);
    }
  }

  lemma MarksStep(flags: seq<string>, last: string, field: string)
    requires MarksIn(TextsOf(flags), field) == Ok(set m | m in flags) && IsFlag(last) && last !in flags
    ensures MarksIn(TextsOf(flags + [last]), field) == Ok(set m | m in flags + [last])
  {
    var longer := TextsOf(flags + [last]);
    assert longer[..|longer| - 1] == TextsOf(flags) && longer[|longer| - 1] == Text(last);
    assert (set m | m in flags + [last]) == (set m | m in flags) + {last};
    hide IsFlag;
  }

  /** Reading an array of flags accepts exactly distinct flags, in any order. */
  lemma {:induction false} MarksRead(flags: seq<string>, field: string)
    requires Distinct(flags) && All(IsFlag, flags)
    ensures MarksIn(TextsOf(flags), field) == Ok(set m | m in flags)
  {
    if flags != [] {
      var init, last := flags[..|flags| - 1], flags[|flags| - 1];
      assert flags == init + [last];
      AppendDistinct(init, last);
      MarksRead(init, field);
      MarksStep(init, last, field);
    } else {
      assert TextsOf(flags) == [] && (set m | m in flags) == {};
    }
  }

  lemma {:induction false} MarksAccepted(items: seq<Json>, field: string) returns (flags: seq<string>)
    ensures MarksIn(items, field).Ok? ==>
      && items == TextsOf(flags) && Distinct(flags) && All(IsFlag, flags)
      && MarksIn(items, field).value == set m | m in flags
  {
    flags := [];
    if items != [] {
      var init := items[..|items| - 1];
      flags := MarksAccepted(init, field);
      if MarksIn(items, field).Ok? {
        var last := items[|items| - 1];
        AppendDistinct(flags, last.text);
        assert items == init + [last];
        assert TextsOf(flags + [last.text]) == TextsOf(flags) + [last];
        assert (set m | m in flags + [last.text]) == (set m | m in flags) + {last.text};
        flags := flags + [last.text];
      }
    }
  }

  method Hashes(value: Option<Json>, field: string) returns (r: Result<Option<seq<Hash>>, Error>)
    ensures r == HashesIn(value, field)
  {
    if value.None? {
      return Ok(None);
    }
    var invalid := Invalid(field, AreObjectNames);
    if !value.value.List? || value.value.items == [] {
      return Err(invalid);
    }
    var items := value.value.items;
    var names: seq<Hash> := [];
    for i := 0 to |items|
      invariant NamesIn(items[..i], field) == Ok(names)
    {
      FailsOnward(items, i + 1, field);
      assert items[..i + 1][..i] == items[..i];
      var read := HashIn(Some(items[i]), field);
      if read.Err? {
        return Err(read.error);
      }
      var name := Required(read.value, field);
      if name.Err? {
        return Err(name.error);
      }
      if name.value in names {
        return Err(invalid);
      }
      names := names + [name.value];
    }
    assert items[..|items|] == items;
    r := Ok(Some(names));
  }

  /** A read that fails on some of an array fails alike on all of it. */
  lemma {:induction false} FailsOnward(items: seq<Json>, i: nat, field: string)
    requires i <= |items|
    ensures NamesIn(items[..i], field).Err? ==> NamesIn(items, field) == Err(NamesIn(items[..i], field).error)
    ensures MarksIn(items[..i], field).Err? ==> MarksIn(items, field) == Err(MarksIn(items[..i], field).error)
    decreases |items|
  {
    if i == |items| {
      assert items[..i] == items;
    } else {
      var init := items[..|items| - 1];
      assert init[..i] == items[..i];
      FailsOnward(init, i, field);
    }
  }

  method FlagSet(value: Option<Json>, field: string) returns (r: Result<Option<Flags>, Error>)
    ensures r == FlagsIn(value, field)
  {
    var invalid := Invalid(field, AreFlags);
    if value.None? {
      return Ok(None);
    }
    if !value.value.List? {
      return Err(invalid);
    }
    var items := value.value.items;
    var marks: set<string> := {};
    for i := 0 to |items|
      invariant MarksIn(items[..i], field) == Ok(marks)
    {
      FailsOnward(items, i + 1, field);
      assert items[..i + 1][..i] == items[..i];
      if !(items[i].Text? && IsFlag(items[i].text) && items[i].text !in marks) {
        return Err(invalid);
      }
      marks := marks + {items[i].text};
    }
    assert items[..|items|] == items;
    r := Ok(Some(Known(marks)));
  }

  // ---------- The round trip ----------

  ghost predicate KnownFlags(flags: Flags) {
    flags.Known? && forall m :: m in flags.marks ==> IsFlag(m)
  }

  predicate NotEmpty(text: Option<string>) {
    text != Some("")
  }

  /** What an action must be for its payload to be one. */
  ghost predicate WellFormed(action: Action) {
    match action
    case Add(link, flags, body, supersedes) =>
      && NotEmpty(link) && KnownFlags(flags) && body.Some? && Base32.IsName(body.value)
      && (supersedes.Some? ==> supersedes.value.collection != "" && supersedes.value.seqno >= 1)
    case SetFlags(seqno, flags) => seqno >= 1 && KnownFlags(flags)
    case Remove(seqno) => seqno >= 1
    case Move(seqno, to) => seqno >= 1 && to != ""
    case Copy(seqno, to) => seqno >= 1 && to != ""
    case Update(seqno, newBody, ifMatch, resolves) =>
      && seqno >= 1 && Base32.IsName(newBody) && (ifMatch.Some? ==> Base32.IsName(ifMatch.value))
      && (resolves.Some? ==> resolves.value != [] && Distinct(resolves.value) && All(Base32.IsName, resolves.value))
    case SetPerformer(capability, source) => IsCapabilityName(capability) && NotEmpty(source)
    case Intent(_, _, _) => false
  }

  lemma TextsInjective(a: seq<string>, b: seq<string>)
    requires TextsOf(a) == TextsOf(b)
    ensures a == b
  {
    assert forall i :: 0 <= i < |a| ==> TextsOf(a)[i] == Text(a[i]) && TextsOf(b)[i] == Text(b[i]);
  }

  lemma FlagsTrip(flags: Flags, field: string)
    ensures FlagsIn(Some(FlagsValue(flags)), field).Ok? <==> KnownFlags(flags)
    ensures KnownFlags(flags) ==> FlagsIn(Some(FlagsValue(flags)), field) == Ok(Some(flags))
  {
    if flags.Known? {
      var order := Ascending(flags.marks);
      DistinctWhenAscending(order);
      assert (set m | m in order) == flags.marks;
      assert KnownFlags(flags) <==> All(IsFlag, order) by {
        assert forall i :: 0 <= i < |order| ==> order[i] in flags.marks;
      }
      if All(IsFlag, order) {
        MarksRead(order, field);
      }
      var read := MarksAccepted(TextsOf(order), field);
      if MarksIn(TextsOf(order), field).Ok? {
        TextsInjective(order, read);
      }
    }
  }

  lemma NamesTrip(names: seq<Hash>, field: string)
    ensures HashesIn(Some(List(TextsOf(names))), field).Ok? <==>
      names != [] && Distinct(names) && All(Base32.IsName, names)
    ensures HashesIn(Some(List(TextsOf(names))), field).Ok? ==>
      HashesIn(Some(List(TextsOf(names))), field) == Ok(Some(names))
  {
    NamesAccepted(TextsOf(names), field);
    if NamesIn(TextsOf(names), field).Ok? {
      TextsInjective(names, NamesIn(TextsOf(names), field).value);
    }
    if Distinct(names) && All(Base32.IsName, names) {
      NamesRead(names, field);
    }
  }

  lemma SupersedesTrip(supersedes: Option<Supersedes>)
    ensures SupersedesIn(SupersedesValue(supersedes)).Ok? <==>
      (supersedes.Some? ==> supersedes.value.collection != "" && supersedes.value.seqno >= 1)
    ensures SupersedesIn(SupersedesValue(supersedes)).Ok? ==>
      SupersedesIn(SupersedesValue(supersedes)) == Ok(supersedes)
  {
    if supersedes.Some? {
      var inner := SupersedesValue(supersedes).value.members;
      assert inner.Keys - {"collection", "seq"} == {};
    }
  }

  lemma AddMembers(action: Action)
    requires action.Add?
    ensures var m := MembersOf(action);
      && DefinedMembers(Record(m), {"link_id", "flags", "object", "supersedes"}) == Ok(m)
      && Get(m, "link_id") == TextValue(action.link) && Get(m, "object") == TextValue(action.body)
      && Get(m, "flags") == Some(FlagsValue(action.flags))
      && Get(m, "supersedes") == SupersedesValue(action.supersedes)
  {
    var m := MembersOf(action);
    assert m.Keys - {"v"} - {"link_id", "flags", "object", "supersedes"} == {};
  }

  lemma AddTrips(action: Action)
    requires action.Add?
    ensures DecodeAdd(Encode(action)).Ok? <==> WellFormed(action)
    ensures WellFormed(action) ==> DecodeAdd(Encode(action)) == Ok(action)
  {
    hide FlagsIn, FlagsValue, SupersedesIn, SupersedesValue, Base32.IsName, MembersOf, DefinedMembers, Get, KnownFlags;
    AddMembers(action);
    FlagsTrip(action.flags, "flags");
    SupersedesTrip(action.supersedes);
  }

  lemma UpdateTrips(action: Action)
    requires action.Update?
    ensures DecodeUpdate(Encode(action)).Ok? <==> WellFormed(action)
    ensures WellFormed(action) ==> DecodeUpdate(Encode(action)) == Ok(action)
  {
    var m := MembersOf(action);
    assert m.Keys - {"v"} - {"seq", "object", "if_match", "resolves"} == {};
    assert Get(m, "seq") == Some(Number(action.seqno)) && Get(m, "object") == Some(Text(action.newBody));
    assert Get(m, "if_match") == TextValue(action.ifMatch) && Get(m, "resolves") == NamesValue(action.resolves);
    if action.resolves.Some? {
      NamesTrip(action.resolves.value, "resolves");
    }
    hide HashesIn, Base32.IsName;
  }

  lemma SetFlagsTrips(action: Action)
    requires action.SetFlags?
    ensures DecodeSetFlags(Encode(action)).Ok? <==> WellFormed(action)
    ensures WellFormed(action) ==> DecodeSetFlags(Encode(action)) == Ok(action)
  {
    hide FlagsIn, FlagsValue, KnownFlags;
    assert MembersOf(action).Keys - {"v"} - {"seq", "flags"} == {};
    FlagsTrip(action.flags, "flags");
  }

  lemma RemoveTrips(action: Action)
    requires action.Remove?
    ensures DecodeRemove(Encode(action)).Ok? <==> WellFormed(action)
    ensures WellFormed(action) ==> DecodeRemove(Encode(action)) == Ok(action)
  {
    assert MembersOf(action).Keys - {"v"} - {"seq"} == {};
  }

  lemma RefileTrips(action: Action)
    requires action.Move? || action.Copy?
    ensures DecodeRefile(KindOf(action), Encode(action)).Ok? <==> WellFormed(action)
    ensures WellFormed(action) ==> DecodeRefile(KindOf(action), Encode(action)) == Ok(action)
  {
    assert MembersOf(action).Keys - {"v"} - {"seq", "to"} == {};
  }

  lemma SetPerformerTrips(action: Action)
    requires action.SetPerformer?
    ensures DecodeSetPerformer(Encode(action)).Ok? <==> WellFormed(action)
    ensures WellFormed(action) ==> DecodeSetPerformer(Encode(action)) == Ok(action)
  {
    hide IsCapabilityName;
    assert MembersOf(action).Keys - {"v"} - {"capability", "source"} == {};
  }

  /** A payload is read back exactly when its action is well-formed, and then as that action. */
  lemma RoundTrip(action: Action, faults: (string, Json) -> Option<Error>)
    requires !action.Intent?
    ensures Decode(KindOf(action), Encode(action), faults).Ok? <==> WellFormed(action)
    ensures WellFormed(action) ==> Decode(KindOf(action), Encode(action), faults) == Ok(action)
  {
    hide DecodeAdd, DecodeUpdate, DecodeSetFlags, DecodeRemove, DecodeRefile, DecodeSetPerformer, Encode, WellFormed;
    match action {
      case Add(_, _, _, _) => AddTrips(action);
      case SetFlags(_, _) => SetFlagsTrips(action);
      case Remove(_) => RemoveTrips(action);
      case Move(_, _) => RefileTrips(action);
      case Copy(_, _) => RefileTrips(action);
      case Update(_, _, _, _) => UpdateTrips(action);
      case SetPerformer(_, _) => SetPerformerTrips(action);
    }
  }

  // ---------- Strictness ----------

  /** An array holding each flag of the set once, in some order. */
  ghost predicate Lists(value: Json, flags: Flags) {
    value.List? && flags.Known? && exists order: seq<string> ::
      value.items == TextsOf(order) && Distinct(order) && (set m | m in order) == flags.marks
  }

  /** What `payload` says once its flags, if it has any, stand in code point order. */
  ghost predicate Says(payload: Json, action: Action) {
    && payload.Record?
    && match action
       case Add(_, flags, _, _) => OrderedSays(payload.members, flags, action)
       case SetFlags(_, flags) => OrderedSays(payload.members, flags, action)
       case _ => Encode(action) == payload
  }

  ghost predicate OrderedSays(members: Members, flags: Flags, action: Action) {
    && "flags" in members && Lists(members["flags"], flags)
    && Encode(action) == Record(members["flags" := FlagsValue(flags)])
  }

  lemma FlagsAccepted(value: Option<Json>, field: string)
    ensures FlagsIn(value, field).Ok? && FlagsIn(value, field).value.Some? ==>
      var flags := FlagsIn(value, field).value.value; value.Some? && Lists(value.value, flags) && KnownFlags(flags)
  {
    if value.Some? && value.value.List? {
      var order := MarksAccepted(value.value.items, field);
      if FlagsIn(value, field).Ok? {
        var flags := FlagsIn(value, field).value.value;
        forall m | m in flags.marks
          ensures IsFlag(m)
        {
          var i :| 0 <= i < |order| && order[i] == m;
        }
      }
    }
  }

  ghost predicate Reads(value: Option<Json>, names: Option<seq<Hash>>) {
    && value == NamesValue(names)
    && (names.Some? ==> names.value != [] && Distinct(names.value) && All(Base32.IsName, names.value))
  }

  lemma HashesAccepted(value: Option<Json>, field: string)
    ensures HashesIn(value, field).Ok? ==> Reads(value, HashesIn(value, field).value)
  {
    if value.Some? && value.value.List? {
      NamesAccepted(value.value.items, field);
    }
  }

  lemma SupersedesAccepted(value: Option<Json>)
    ensures SupersedesIn(value).Ok? ==>
      var s := SupersedesIn(value).value;
      value == SupersedesValue(s) && (s.Some? ==> s.value.collection != "" && s.value.seqno >= 1)
  {
    if value.Some? && SupersedesIn(value).Ok? {
      var inner := value.value.members;
      assert inner.Keys - {"collection", "seq"} == {};
      SameMembersAs(inner, SupersedesValue(SupersedesIn(value).value).value.members, {"collection", "seq"});
    }
  }

  lemma DefinedAccepted(payload: Json, defined: set<string>)
    ensures DefinedMembers(payload, defined).Ok? ==>
      && payload == Record(DefinedMembers(payload, defined).value)
      && Get(payload.members, "v") == Some(Number(1))
      && payload.members.Keys <= defined + {"v"}
  {
    if DefinedMembers(payload, defined).Ok? {
      assert payload.members.Keys - {"v"} - defined == {};
    }
  }

  lemma SameMembersAs(a: Members, b: Members, names: set<string>)
    requires a.Keys <= names && b.Keys <= names && forall k :: k in names ==> Get(a, k) == Get(b, k)
    ensures a == b
  {
    forall k
      ensures k in a <==> k in b
      ensures k in a ==> a[k] == b[k]
    {
      assert k in names ==> Get(a, k) == Get(b, k);
    }
  }

  lemma AddAccepted(payload: Json)
    ensures DecodeAdd(payload).Ok? ==>
      var a := DecodeAdd(payload).value; a.Add? && WellFormed(a) && Says(payload, a)
  {
    hide FlagsIn, FlagsValue, SupersedesIn, SupersedesValue, Base32.IsName, DefinedMembers, KnownFlags, Lists,
      MembersOf;
    var names := {"link_id", "flags", "object", "supersedes"};
    DefinedAccepted(payload, names);
    if DecodeAdd(payload).Ok? {
      var m, a := payload.members, DecodeAdd(payload).value;
      FlagsAccepted(Get(m, "flags"), "flags");
      SupersedesAccepted(Get(m, "supersedes"));
      AddMembers(a);
      DefinedAccepted(Record(MembersOf(a)), names);
      SameMembersAs(MembersOf(a), m["flags" := FlagsValue(a.flags)], names + {"v"});
    }
  }

  lemma UpdateAccepted(payload: Json)
    ensures DecodeUpdate(payload).Ok? ==>
      var a := DecodeUpdate(payload).value; a.Update? && WellFormed(a) && Says(payload, a)
  {
    hide HashesIn, Base32.IsName, DefinedMembers;
    var names := {"seq", "object", "if_match", "resolves"};
    DefinedAccepted(payload, names);
    if DecodeUpdate(payload).Ok? {
      var m, a := payload.members, DecodeUpdate(payload).value;
      HashesAccepted(Get(m, "resolves"), "resolves");
      SameMembersAs(MembersOf(a), m, names + {"v"});
    }
  }

  lemma SetFlagsAccepted(payload: Json)
    ensures DecodeSetFlags(payload).Ok? ==>
      var a := DecodeSetFlags(payload).value; a.SetFlags? && WellFormed(a) && Says(payload, a)
  {
    hide FlagsIn, FlagsValue, DefinedMembers, KnownFlags, Lists;
    var names := {"seq", "flags"};
    DefinedAccepted(payload, names);
    if DecodeSetFlags(payload).Ok? {
      var m, a := payload.members, DecodeSetFlags(payload).value;
      FlagsAccepted(Get(m, "flags"), "flags");
      SameMembersAs(MembersOf(a), m["flags" := FlagsValue(a.flags)], names + {"v"});
    }
  }

  lemma RemoveAccepted(payload: Json)
    ensures DecodeRemove(payload).Ok? ==>
      var a := DecodeRemove(payload).value; a.Remove? && WellFormed(a) && Says(payload, a)
  {
    hide DefinedMembers;
    DefinedAccepted(payload, {"seq"});
    if DecodeRemove(payload).Ok? {
      SameMembersAs(MembersOf(DecodeRemove(payload).value), payload.members, {"seq", "v"});
    }
  }

  lemma RefileAccepted(kind: string, payload: Json)
    ensures DecodeRefile(kind, payload).Ok? ==>
      var a := DecodeRefile(kind, payload).value;
      (if kind == "move" then a.Move? else a.Copy?) && WellFormed(a) && Says(payload, a)
  {
    hide DefinedMembers;
    DefinedAccepted(payload, {"seq", "to"});
    if DecodeRefile(kind, payload).Ok? {
      SameMembersAs(MembersOf(DecodeRefile(kind, payload).value), payload.members, {"seq", "to", "v"});
    }
  }

  lemma SetPerformerAccepted(payload: Json)
    ensures DecodeSetPerformer(payload).Ok? ==>
      var a := DecodeSetPerformer(payload).value; a.SetPerformer? && WellFormed(a) && Says(payload, a)
  {
    hide DefinedMembers, IsCapabilityName;
    DefinedAccepted(payload, {"capability", "source"});
    if DecodeSetPerformer(payload).Ok? {
      SameMembersAs(MembersOf(DecodeSetPerformer(payload).value), payload.members, {"capability", "source", "v"});
    }
  }

  /**
    Nothing but a well-formed action of the kind is read, and nothing the payload says is
    dropped or invented: writing the action again gives the payload, its flags put in order.
  */
  lemma StrictRead(kind: string, payload: Json, faults: (string, Json) -> Option<Error>)
    ensures Decode(kind, payload, faults).Ok? ==>
      var a := Decode(kind, payload, faults).value;
      KindOf(a) == kind && (if a.Intent? then a.payload == payload else WellFormed(a) && Says(payload, a))
  {
    hide DecodeAdd, DecodeUpdate, DecodeSetFlags, DecodeRemove, DecodeRefile, DecodeSetPerformer, WellFormed, Says;
    AddAccepted(payload);
    UpdateAccepted(payload);
    SetFlagsAccepted(payload);
    RemoveAccepted(payload);
    RefileAccepted(kind, payload);
    SetPerformerAccepted(payload);
  }
}
