/** What a change asks of a remote, and the fields its idempotency key is made of. */
module ChangeModel {
  import opened Wrappers
  import opened Entities
  import opened Text

  /** The member an add may be moved from. */
  datatype MovedFrom = MovedFrom(collection: Collection, handle: Handle)

  datatype Change =
    | Add(
        handle: Handle, link: Option<LinkId>, flags: Flags, origin: Option<Origin>, movedFrom: Option<MovedFrom>,
        body: Option<Hash>)
    | Remove(handle: Handle, to: Option<Collection>, link: Option<LinkId>, ifMatch: Option<Revision>)
    | SetFlags(handle: Handle, add: set<string>, remove: set<string>)
    | Update(handle: Handle, newBody: Hash, ifMatch: Option<Revision>)

  /** The state a change makes true: the change without its preconditions. */
  datatype Target =
    | Present(link: Option<LinkId>, flags: Flags, origin: Option<Origin>, body: Option<Hash>)
    | Gone(to: Option<Collection>)
    | Flagged(add: set<string>, remove: set<string>)
    | Holding(newBody: Hash)

  function TargetOf(change: Change): Target {
    match change
    case Add(_, link, flags, origin, _, body) => Present(link, flags, origin, body)
    case Remove(_, to, _, _) => Gone(to)
    case SetFlags(_, add, remove) => Flagged(add, remove)
    case Update(_, newBody, _) => Holding(newBody)
  }

  // ---------- The fields ----------

  function DecimalDigit(d: nat): char
    requires d < 10
  {
    '0' + d as char
  }

  function Decimal(n: nat): (s: string)
    ensures s != ""
  {
    if n < 10 then [DecimalDigit(n)] else Decimal(n / 10) + [DecimalDigit(n % 10)]
  }

  function OptionFields(field: Option<string>): seq<string> {
    if field.Some? then ["1", field.value] else ["0"]
  }

  function SetFields(marks: set<string>): seq<string> {
    ["known", Decimal(|marks|)] + Ascending(marks)
  }

  function FlagFields(flags: Flags): seq<string> {
    if flags.Known? then SetFields(flags.marks) else ["unknown"]
  }

  function OriginFields(origin: Option<Origin>): seq<string> {
    if origin.Some? then ["1", origin.value.collection, origin.value.handle] else ["0"]
  }

  function TargetFields(change: Change): seq<string> {
    match change
    case Add(_, link, flags, origin, _, body) =>
      ["add"] + (OptionFields(link) + (FlagFields(flags) + (OriginFields(origin) + OptionFields(body))))
    case Remove(_, to, _, _) => ["remove"] + OptionFields(to)
    case SetFlags(_, add, remove) => ["set-flags"] + (SetFields(add) + SetFields(remove))
    case Update(_, newBody, _) => ["update", newBody]
  }

  function Fields(collection: Collection, change: Change): seq<string> {
    [collection, change.handle] + TargetFields(change)
  }

  const NUL: char := '\U{0000}'

  /** The bytes digested: each field and the zero byte closing it. */
  function Stream(fields: seq<string>): string {
    if fields == [] then "" else Stream(fields[..|fields| - 1]) + (fields[|fields| - 1] + [NUL])
  }

  lemma {:induction false} StreamConcat(a: seq<string>, b: seq<string>)
    ensures Stream(a + b) == Stream(a) + Stream(b)
  {
    if b == [] {
      assert a + b == a;
    } else {
      assert (a + b)[..|a + b| - 1] == a + b[..|b| - 1];
      StreamConcat(a, b[..|b| - 1]);
    }
  }
}

/** The sixty-four bit FNV-1a fold and its key in hexadecimal. */
module Fnv {
  import opened Arithmetic
  import opened Entities
  import opened ChangeModel
  import opened Wrappers
  import opened Text

  const WIDTH := 0x1_0000_0000_0000_0000
  const OFFSET := 0xcbf29ce484222325
  const PRIME := 0x100000001b3

  type Word = x: int | 0 <= x < WIDTH

  /** Exclusive or, bit by bit. */
  function Xor(a: nat, b: nat): nat
    decreases a + b
  {
    if a == 0 && b == 0 then 0 else 2 * Xor(a / 2, b / 2) + (a + b) % 2
  }

  lemma {:induction false} XorBounded(a: nat, b: nat, n: nat)
    requires a < Pow2(n) && b < Pow2(n)
    ensures Xor(a, b) < Pow2(n)
  {
    if n > 0 {
      XorBounded(a / 2, b / 2, n - 1);
    }
  }

  lemma XorHalves(a: nat, b: nat)
    ensures Xor(a, b) / 2 == Xor(a / 2, b / 2) && Xor(a, b) % 2 == (a + b) % 2
    ensures Xor(0, 0) == 0
  {
  }

  lemma SameHalves(x: nat, a: nat, b: nat)
    requires x / 2 == a / 2 && x % 2 == ((a + b) % 2 + b) % 2
    ensures x == a
  {
  }

  lemma Parity(x: nat, b: nat)
    ensures (x % 2 + b) % 2 == (x + b) % 2
  {
  }

  lemma {:induction false} XorUndoes(a: nat, b: nat)
    ensures Xor(Xor(a, b), b) == a
    decreases a + b
  {
    hide Xor;
    XorHalves(a, b);
    XorHalves(Xor(a, b), b);
    if a != 0 || b != 0 {
      XorUndoes(a / 2, b / 2);
      Parity(Xor(a, b), b);
      SameHalves(Xor(Xor(a, b), b), a, b);
    } else {
      assert Xor(0, 0) == 0;
    }
  }

  lemma {:induction false} XorCommutes(a: nat, b: nat)
    ensures Xor(a, b) == Xor(b, a)
    decreases a + b
  {
    if a != 0 || b != 0 {
      XorCommutes(a / 2, b / 2);
    }
  }

  lemma WidthIsPower()
    ensures Pow2(64) == WIDTH
  {
    SmallPowers();
    PowSum(8, 8);
    PowSum(16, 16);
    PowSum(32, 32);
  }

  function Step(state: Word, byte: char): Word {
    Xor(state, byte as int) * PRIME % WIDTH
  }

  function Fold(state: Word, bytes: string): Word {
    if bytes == "" then state else Step(Fold(state, bytes[..|bytes| - 1]), bytes[|bytes| - 1])
  }

  lemma {:induction false} FoldConcat(state: Word, a: string, b: string)
    ensures Fold(state, a + b) == Fold(Fold(state, a), b)
  {
    if b == "" {
      assert a + b == a;
    } else {
      assert (a + b)[..|a + b| - 1] == a + b[..|b| - 1];
      FoldConcat(state, a, b[..|b| - 1]);
    }
  }

  // ---------- Injectivity ----------

  /** The inverse of the prime modulo the width. */
  const INVERSE := 0xce965057aff6957b

  lemma TimesUndoes(x: Word)
    ensures x * PRIME % WIDTH * INVERSE % WIDTH == x
  {
    var q, r := x * PRIME / WIDTH, x * PRIME % WIDTH;
    assert x * PRIME == q * WIDTH + r;
    assert PRIME * INVERSE == 887285111055 * WIDTH + 1;
    assert r * INVERSE == (887285111055 * x - q * INVERSE) * WIDTH + x;
    DivModUnique(r * INVERSE, 887285111055 * x - q * INVERSE, x, WIDTH);
  }

  lemma XorIsWord(a: Word, byte: char)
    ensures Xor(a, byte as int) < WIDTH
  {
    WidthIsPower();
    XorBounded(a, byte as int, 64);
  }

  /** Each step tells two states apart, and two bytes apart. */
  lemma StepInjective(a: Word, b: Word, x: char, y: char)
    requires Step(a, x) == Step(b, y)
    ensures x == y ==> a == b
    ensures a == b ==> x == y
  {
    XorIsWord(a, x);
    XorIsWord(b, y);
    TimesUndoes(Xor(a, x as int));
    TimesUndoes(Xor(b, y as int));
    XorUndoes(a, x as int);
    XorUndoes(b, y as int);
    XorCommutes(a, x as int);
    XorCommutes(b, y as int);
    XorUndoes(x as int, a);
    XorUndoes(y as int, b);
  }

  lemma {:induction false} FoldInjective(a: Word, b: Word, bytes: string)
    requires Fold(a, bytes) == Fold(b, bytes)
    ensures a == b
  {
    if bytes != "" {
      var init, last := bytes[..|bytes| - 1], bytes[|bytes| - 1];
      StepInjective(Fold(a, init), Fold(b, init), last, last);
      FoldInjective(a, b, init);
    }
  }

  // ---------- The key ----------

  const HEX := "0123456789abcdef"

  function HexOf(value: nat, digits: nat): (s: string)
    ensures |s| == digits
  {
    if digits == 0 then "" else HexOf(value / 16, digits - 1) + [HEX[value % 16]]
  }

  lemma HexDigitInjective(a: nat, b: nat)
    requires a < 16 && b < 16 && HEX[a] == HEX[b]
    ensures a == b
  {
  }

  lemma HexSplits(a: nat, b: nat, digits: nat)
    requires digits > 0 && HexOf(a, digits) == HexOf(b, digits)
    ensures HexOf(a / 16, digits - 1) == HexOf(b / 16, digits - 1) && a % 16 == b % 16
  {
    var x, y := HexOf(a, digits), HexOf(b, digits);
    assert x[..digits - 1] == HexOf(a / 16, digits - 1) && y[..digits - 1] == HexOf(b / 16, digits - 1);
    assert x[digits - 1] == HEX[a % 16] && y[digits - 1] == HEX[b % 16];
    HexDigitInjective(a % 16, b % 16);
  }

  lemma {:induction false} HexInjective(a: nat, b: nat, digits: nat)
    requires a < Pow2(4 * digits) && b < Pow2(4 * digits) && HexOf(a, digits) == HexOf(b, digits)
    ensures a == b
  {
    hide HexOf;
    if digits > 0 {
      HexSplits(a, b, digits);
      PowSum(4 * (digits - 1), 4);
      SmallPowers();
      HexInjective(a / 16, b / 16, digits - 1);
    }
  }

  function KeyOf(stream: string): string {
    HexOf(Fold(OFFSET, stream), 16)
  }

  ghost predicate OneByteApart(a: string, b: string) {
    |a| == |b| && exists i :: 0 <= i < |a| && DifferOnlyAt(a, b, i)
  }

  ghost predicate DifferOnlyAt(a: string, b: string, i: nat)
    requires i < |a| == |b|
  {
    a[i] != b[i] && a[..i] == b[..i] && a[i + 1..] == b[i + 1..]
  }

  /** Two streams one byte apart never get one key. */
  lemma OneByteChangesKey(a: string, b: string)
    requires OneByteApart(a, b)
    ensures KeyOf(a) != KeyOf(b)
  {
    if KeyOf(a) == KeyOf(b) {
      WidthIsPower();
      HexInjective(Fold(OFFSET, a), Fold(OFFSET, b), 16);
      OneByteChangesFold(a, b);
    }
  }

  lemma OneByteChangesFold(a: string, b: string)
    requires OneByteApart(a, b)
    ensures Fold(OFFSET, a) != Fold(OFFSET, b)
  {
    var i :| 0 <= i < |a| && DifferOnlyAt(a, b, i);
    SplitFold(a, i);
    SplitFold(b, i);
    var state, rest := Fold(OFFSET, a[..i]), a[i + 1..];
    if Fold(OFFSET, a) == Fold(OFFSET, b) {
      FoldInjective(Step(state, a[i]), Step(state, b[i]), rest);
      StepInjective(state, state, a[i], b[i]);
    }
  }

  lemma SplitFold(a: string, i: nat)
    requires i < |a|
    ensures Fold(OFFSET, a) == Fold(Step(Fold(OFFSET, a[..i]), a[i]), a[i + 1..])
  {
    hide Step;
    assert a == a[..i + 1] + a[i + 1..];
    FoldConcat(OFFSET, a[..i + 1], a[i + 1..]);
    assert a[..i + 1][..i] == a[..i];
  }

  /** The digest a change is folded into. */
  class Digest {
    var state: Word

    constructor ()
      ensures state == OFFSET
    {
      state := OFFSET;
    }

    method Field(bytes: string)
      modifies this
      ensures state == Fold(old(state), Stream([bytes]))
    {
      var closed := bytes + [NUL];
      for i := 0 to |closed|
        invariant state == Fold(old(state), closed[..i])
      {
        assert closed[..i + 1][..i] == closed[..i];
        XorIsWord(state, closed[i]);
        state := Xor(state, closed[i] as int);
        state := state * PRIME % WIDTH;
      }
      assert closed[..|closed|] == closed;
      assert Stream([bytes]) == closed;
    }

    method Opt(bytes: Option<string>)
      modifies this
      ensures state == Fold(old(state), Stream(OptionFields(bytes)))
    {
      hide Fold, Stream;
      if bytes.Some? {
        assert ["1"] + [bytes.value] == OptionFields(bytes);
        Joined(state, ["1"], [bytes.value]);
        Field("1");
        Field(bytes.value);
      } else {
        Field("0");
      }
    }

    method Set(marks: set<string>)
      modifies this
      ensures state == Fold(old(state), Stream(SetFields(marks)))
    {
      hide Fold, Stream;
      var fields := Ascending(marks);
      ghost var head := ["known", Decimal(|marks|)];
      assert ["known"] + [Decimal(|marks|)] == head && head + fields[..0] == head;
      Joined(state, ["known"], [Decimal(|marks|)]);
      Field("known");
      Field(Decimal(|marks|));
      for i := 0 to |fields|
        invariant state == Fold(old(state), Stream(head + fields[..i]))
      {
        assert head + fields[..i + 1] == (head + fields[..i]) + [fields[i]];
        Joined(old(state), head + fields[..i], [fields[i]]);
        Field(fields[i]);
      }
      assert fields[..|fields|] == fields;
    }

    method FlagSet(flags: Flags)
      modifies this
      ensures state == Fold(old(state), Stream(FlagFields(flags)))
    {
      if flags.Known? {
        Set(flags.marks);
      } else {
        Field("unknown");
      }
    }

    method OriginSet(origin: Option<Origin>)
      modifies this
      ensures state == Fold(old(state), Stream(OriginFields(origin)))
    {
      hide Fold, Stream;
      if origin.Some? {
        Joined(state, ["1"], [origin.value.collection]);
        assert ["1"] + [origin.value.collection] == ["1", origin.value.collection];
        assert ["1", origin.value.collection] + [origin.value.handle] == OriginFields(origin);
        Joined(state, ["1", origin.value.collection], [origin.value.handle]);
        Field("1");
        Field(origin.value.collection);
        Field(origin.value.handle);
      } else {
        Field("0");
      }
    }

    method Finish() returns (key: string)
      ensures key == HexOf(state, 16)
    {
      key := HexOf(state, 16);
    }
  }

  lemma Joined(state: Word, a: seq<string>, b: seq<string>)
    ensures Fold(state, Stream(a + b)) == Fold(Fold(state, Stream(a)), Stream(b))
  {
    StreamConcat(a, b);
    FoldConcat(state, Stream(a), Stream(b));
  }

  method Key(collection: Collection, change: Change) returns (key: string)
    ensures key == KeyOf(Stream(Fields(collection, change)))
    ensures |key| == 16
  {
    var digest := new Digest();
    Joined(OFFSET, [collection, change.handle], TargetFields(change));
    Joined(OFFSET, [collection], [change.handle]);
    digest.Field(collection);
    digest.Field(change.handle);
    ghost var state := digest.state;
    match change {
      case Add(_, link, flags, origin, _, body) =>
        Joined(state, ["add"], OptionFields(link) + (FlagFields(flags) + (OriginFields(origin) + OptionFields(body))));
        digest.Field("add");
        Joined(digest.state, OptionFields(link), FlagFields(flags) + (OriginFields(origin) + OptionFields(body)));
        digest.Opt(link);
        Joined(digest.state, FlagFields(flags), OriginFields(origin) + OptionFields(body));
        digest.FlagSet(flags);
        Joined(digest.state, OriginFields(origin), OptionFields(body));
        digest.OriginSet(origin);
        digest.Opt(body);
      case Remove(_, to, _, _) =>
        Joined(state, ["remove"], OptionFields(to));
        digest.Field("remove");
        digest.Opt(to);
      case SetFlags(_, add, remove) =>
        Joined(state, ["set-flags"], SetFields(add) + SetFields(remove));
        digest.Field("set-flags");
        Joined(digest.state, SetFields(add), SetFields(remove));
        digest.Set(add);
        digest.Set(remove);
      case Update(_, newBody, _) =>
        Joined(state, ["update"], [newBody]);
        digest.Field("update");
        digest.Field(newBody);
    }
    key := digest.Finish();
  }
}
