/** The digested stream names a target state: equal streams are equal changes, preconditions aside. */
module ChangeStream {
  import opened Wrappers
  import opened Entities
  import opened Text
  import opened ChangeModel

  // ---------- Splitting a stream into its fields ----------

  ghost predicate NulFree(fields: seq<string>) {
    forall i :: 0 <= i < |fields| ==> NUL !in fields[i]
  }

  lemma FirstField(x: string, y: string, a: string, b: string)
    requires NUL !in x && NUL !in y && x + [NUL] + a == y + [NUL] + b
    ensures x == y && a == b
  {
    var s, t := x + [NUL] + a, y + [NUL] + b;
    assert s[|x|] == NUL && t[|y|] == NUL;
    assert |x| == |y|;
    assert s[..|x|] == x && t[..|y|] == y;
    assert s[|x| + 1..] == a && t[|y| + 1..] == b;
  }

  lemma StreamHead(fields: seq<string>)
    requires fields != []
    ensures Stream(fields) == fields[0] + [NUL] + Stream(fields[1..])
  {
    assert [fields[0]] + fields[1..] == fields;
    StreamConcat([fields[0]], fields[1..]);
    assert Stream([fields[0]]) == fields[0] + [NUL];
  }

  lemma {:induction false} StreamInjective(a: seq<string>, b: seq<string>)
    requires NulFree(a) && NulFree(b) && Stream(a) == Stream(b)
    ensures a == b
  {
    if a != [] && b != [] {
      StreamHead(a);
      StreamHead(b);
      FirstField(a[0], b[0], Stream(a[1..]), Stream(b[1..]));
      StreamInjective(a[1..], b[1..]);
      assert a == [a[0]] + a[1..] && b == [b[0]] + b[1..];
    } else if a != [] {
      StreamHead(a);
    } else if b != [] {
      StreamHead(b);
    }
  }

  // ---------- Reading a target back from its fields ----------

  lemma {:induction false} DecimalInjective(a: nat, b: nat)
    requires Decimal(a) == Decimal(b)
    ensures a == b
  {
    var x, y := Decimal(a), Decimal(b);
    assert x[|x| - 1] == DecimalDigit(a % 10) && y[|y| - 1] == DecimalDigit(b % 10);
    assert a >= 10 ==> x[..|x| - 1] == Decimal(a / 10);
    assert b >= 10 ==> y[..|y| - 1] == Decimal(b / 10);
    if a >= 10 && b >= 10 {
      DecimalInjective(a / 10, b / 10);
    }
  }

  lemma CutPrefix(p: seq<string>, a: seq<string>, q: seq<string>, b: seq<string>)
    requires p + a == q + b && |p| == |q|
    ensures p == q && a == b
  {
    assert (p + a)[..|p|] == p && (q + b)[..|q|] == q;
    assert (p + a)[|p|..] == a && (q + b)[|q|..] == b;
  }

  lemma OptionReads(x: Option<string>, a: seq<string>, y: Option<string>, b: seq<string>)
    requires OptionFields(x) + a == OptionFields(y) + b
    ensures x == y && a == b
  {
    assert (OptionFields(x) + a)[0] == OptionFields(x)[0] && (OptionFields(y) + b)[0] == OptionFields(y)[0];
    CutPrefix(OptionFields(x), a, OptionFields(y), b);
    assert x.Some? ==> OptionFields(x)[1] == x.value;
    assert y.Some? ==> OptionFields(y)[1] == y.value;
  }

  lemma OriginReads(x: Option<Origin>, a: seq<string>, y: Option<Origin>, b: seq<string>)
    requires OriginFields(x) + a == OriginFields(y) + b
    ensures x == y && a == b
  {
    assert (OriginFields(x) + a)[0] == OriginFields(x)[0] && (OriginFields(y) + b)[0] == OriginFields(y)[0];
    CutPrefix(OriginFields(x), a, OriginFields(y), b);
    assert x.Some? ==> OriginFields(x)[1] == x.value.collection && OriginFields(x)[2] == x.value.handle;
    assert y.Some? ==> OriginFields(y)[1] == y.value.collection && OriginFields(y)[2] == y.value.handle;
  }

  lemma AscendingInjective(x: set<string>, y: set<string>)
    requires Ascending(x) == Ascending(y)
    ensures x == y
  {
    assert forall m :: m in x <==> m in Ascending(x);
    assert forall m :: m in y <==> m in Ascending(y);
  }

  /** The count says where a set's flags end, so no flag is taken for what follows them. */
  lemma SetReads(x: set<string>, a: seq<string>, y: set<string>, b: seq<string>)
    requires SetFields(x) + a == SetFields(y) + b
    ensures x == y && a == b
  {
    assert (SetFields(x) + a)[1] == Decimal(|x|) && (SetFields(y) + b)[1] == Decimal(|y|);
    DecimalInjective(|x|, |y|);
    CutPrefix(SetFields(x), a, SetFields(y), b);
    assert SetFields(x)[2..] == Ascending(x) && SetFields(y)[2..] == Ascending(y);
    AscendingInjective(x, y);
  }

  lemma FlagsRead(x: Flags, a: seq<string>, y: Flags, b: seq<string>)
    requires FlagFields(x) + a == FlagFields(y) + b
    ensures x == y && a == b
  {
    assert (FlagFields(x) + a)[0] == (if x.Known? then "known" else "unknown");
    assert (FlagFields(y) + b)[0] == (if y.Known? then "known" else "unknown");
    assert |"known"| != |"unknown"|;
    if x.Known? {
      SetReads(x.marks, a, y.marks, b);
    } else {
      CutPrefix(FlagFields(x), a, FlagFields(y), b);
    }
  }

  lemma AddReads(x: Change, y: Change)
    requires x.Add? && y.Add? && TargetFields(x) == TargetFields(y)
    ensures TargetOf(x) == TargetOf(y)
  {
    var a, b := OriginFields(x.origin) + OptionFields(x.body), OriginFields(y.origin) + OptionFields(y.body);
    CutPrefix(["add"], OptionFields(x.link) + (FlagFields(x.flags) + a),
              ["add"], OptionFields(y.link) + (FlagFields(y.flags) + b));
    OptionReads(x.link, FlagFields(x.flags) + a, y.link, FlagFields(y.flags) + b);
    FlagsRead(x.flags, a, y.flags, b);
    OriginReads(x.origin, OptionFields(x.body), y.origin, OptionFields(y.body));
    assert OptionFields(x.body) + [] == OptionFields(y.body) + [];
    OptionReads(x.body, [], y.body, []);
  }

  function KindName(change: Change): string {
    match change
    case Add(_, _, _, _, _, _) => "add"
    case Remove(_, _, _, _) => "remove"
    case SetFlags(_, _, _) => "set-flags"
    case Update(_, _, _) => "update"
  }

  lemma KindReads(x: Change, y: Change)
    requires TargetFields(x) == TargetFields(y)
    ensures x.Add? == y.Add? && x.Remove? == y.Remove? && x.SetFlags? == y.SetFlags? && x.Update? == y.Update?
  {
    assert TargetFields(x)[0] == KindName(x) && TargetFields(y)[0] == KindName(y);
    assert KindName(x)[0] == KindName(y)[0];
  }

  lemma TargetReads(x: Change, y: Change)
    requires TargetFields(x) == TargetFields(y)
    ensures TargetOf(x) == TargetOf(y)
  {
    KindReads(x, y);
    match x {
      case Add(_, _, _, _, _, _) =>
        AddReads(x, y);
      case Remove(_, to, _, _) =>
        CutPrefix(["remove"], OptionFields(to), ["remove"], OptionFields(y.to));
        assert OptionFields(to) + [] == OptionFields(y.to) + [];
        OptionReads(to, [], y.to, []);
      case SetFlags(_, add, remove) =>
        CutPrefix(["set-flags"], SetFields(add) + SetFields(remove),
                  ["set-flags"], SetFields(y.add) + SetFields(y.remove));
        SetReads(add, SetFields(remove), y.add, SetFields(y.remove));
        assert SetFields(remove) + [] == SetFields(y.remove) + [];
        SetReads(remove, [], y.remove, []);
      case Update(_, newBody, _) =>
        assert TargetFields(x)[1] == newBody && TargetFields(y)[1] == y.newBody;
    }
  }

  // ---------- The texts a change carries ----------

  predicate NoNul(text: Option<string>) {
    text.Some? ==> NUL !in text.value
  }

  ghost predicate NoneNul(marks: set<string>) {
    forall m :: m in marks ==> NUL !in m
  }

  /** No text that reaches the stream holds a zero byte. */
  ghost predicate Printable(collection: Collection, change: Change) {
    && NUL !in collection && NUL !in change.handle
    && match change
       case Add(_, link, flags, origin, _, body) =>
         && NoNul(link) && NoNul(body)
         && (flags.Known? ==> NoneNul(flags.marks))
         && (origin.Some? ==> NUL !in origin.value.collection && NUL !in origin.value.handle)
       case Remove(_, to, _, _) => NoNul(to)
       case SetFlags(_, add, remove) => NoneNul(add) && NoneNul(remove)
       case Update(_, newBody, _) => NUL !in newBody
  }

  lemma {:induction false} DecimalNulFree(n: nat)
    ensures NUL !in Decimal(n)
  {
    if n >= 10 {
      DecimalNulFree(n / 10);
    }
  }

  lemma ConcatNulFree(a: seq<string>, b: seq<string>)
    requires NulFree(a) && NulFree(b)
    ensures NulFree(a + b)
  {
  }

  lemma AscendingNulFree(marks: set<string>)
    requires NoneNul(marks)
    ensures NulFree(Ascending(marks))
  {
    hide Ascending;
    var order := Ascending(marks);
    assert forall i :: 0 <= i < |order| ==> order[i] in order;
  }

  lemma SetNulFree(marks: set<string>)
    requires NoneNul(marks)
    ensures NulFree(SetFields(marks))
  {
    hide Decimal, Ascending;
    DecimalNulFree(|marks|);
    AscendingNulFree(marks);
    assert NulFree(["known", Decimal(|marks|)]);
    ConcatNulFree(["known", Decimal(|marks|)], Ascending(marks));
  }

  lemma PrintableFields(collection: Collection, change: Change)
    requires Printable(collection, change)
    ensures NulFree(Fields(collection, change))
  {
    match change {
      case Add(_, link, flags, origin, _, body) =>
        assert NulFree(OptionFields(link)) && NulFree(OriginFields(origin)) && NulFree(OptionFields(body));
        assert NulFree(["add"]);
        if flags.Known? {
          SetNulFree(flags.marks);
        } else {
          assert NulFree(["unknown"]);
        }
        ConcatNulFree(OriginFields(origin), OptionFields(body));
        ConcatNulFree(FlagFields(flags), OriginFields(origin) + OptionFields(body));
        ConcatNulFree(OptionFields(link), FlagFields(flags) + (OriginFields(origin) + OptionFields(body)));
        ConcatNulFree(["add"], OptionFields(link) + (FlagFields(flags) + (OriginFields(origin) + OptionFields(body))));
      case Remove(_, to, _, _) =>
        assert NulFree(["remove"]) && NulFree(OptionFields(to));
      case SetFlags(_, add, remove) =>
        assert NulFree(["set-flags"]);
        SetNulFree(add);
        SetNulFree(remove);
        ConcatNulFree(SetFields(add), SetFields(remove));
        ConcatNulFree(["set-flags"], SetFields(add) + SetFields(remove));
      case Update(_, newBody, _) =>
        assert NulFree(["update", newBody]);
    }
    ConcatNulFree([collection, change.handle], TargetFields(change));
  }

  /**
    One stream is one collection, handle, kind and target: preconditions and the member an
    add may be moved from leave no trace in it, and nothing else goes missing.
  */
  lemma StreamNamesTarget(c: Collection, x: Change, d: Collection, y: Change)
    requires Printable(c, x) && Printable(d, y)
    ensures Stream(Fields(c, x)) == Stream(Fields(d, y)) <==>
      c == d && x.handle == y.handle && TargetOf(x) == TargetOf(y)
  {
    if Stream(Fields(c, x)) == Stream(Fields(d, y)) {
      PrintableFields(c, x);
      PrintableFields(d, y);
      StreamInjective(Fields(c, x), Fields(d, y));
      CutPrefix([c, x.handle], TargetFields(x), [d, y.handle], TargetFields(y));
      assert [c, x.handle][0] == c && [c, x.handle][1] == x.handle;
      TargetReads(x, y);
    }
    if c == d && x.handle == y.handle && TargetOf(x) == TargetOf(y) {
      assert TargetFields(x) == TargetFields(y);
    }
  }

  /** A zero byte inside a field moves a boundary: two members of two collections, one stream. */
  lemma NulMovesBoundary()
    ensures exists c: Collection, x: Change, d: Collection, y: Change ::
      c != d && x.handle != y.handle && Stream(Fields(c, x)) == Stream(Fields(d, y))
  {
    hide Stream;
    var x, y := Update("h", "b", None), Update("g" + [NUL] + "h", "b", None);
    var c, d := "c" + [NUL] + "g", "c";
    var t := TargetFields(x);
    StreamHead([c, "h"] + t);
    StreamHead(["h"] + t);
    StreamHead([d, y.handle] + t);
    StreamHead([y.handle] + t);
    assert ([c, "h"] + t)[1..] == ["h"] + t && (["h"] + t)[1..] == t;
    assert ([d, y.handle] + t)[1..] == [y.handle] + t && ([y.handle] + t)[1..] == t;
    assert Stream(Fields(c, x)) == c + [NUL] + ("h" + [NUL] + Stream(t));
    assert Stream(Fields(d, y)) == d + [NUL] + (y.handle + [NUL] + Stream(t));
    assert Stream(Fields(c, x)) == Stream(Fields(d, y));
    assert |c| != |d| && |x.handle| != |y.handle|;
  }
}
