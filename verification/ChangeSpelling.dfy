/** The spelling of a change's stream and key, which two engines over one store must share. */
module ChangeSpelling {
  import opened Wrappers
  import opened Entities
  import opened Arithmetic
  import opened Text
  import opened ChangeModel
  import opened ChangeStream
  import opened Fnv

  // ---------- The stream ----------

  lemma {:induction false} StreamOfTwo(a: string, b: string, rest: seq<string>)
    ensures Stream([a, b] + rest) == a + [NUL] + (b + [NUL] + Stream(rest))
  {
    StreamHead([a, b] + rest);
    StreamHead([b] + rest);
    assert ([a, b] + rest)[1..] == [b] + rest && ([b] + rest)[1..] == rest;
  }

  lemma StreamOpensWith(c: Collection, handle: Handle, t: seq<string>)
    requires t != []
    ensures c + [NUL] + handle + [NUL] + t[0] + [NUL] <= Stream([c, handle] + t)
  {
    hide Stream;
    StreamOfTwo(c, handle, t);
    StreamHead(t);
    var open := c + [NUL] + handle + [NUL] + t[0] + [NUL];
    assert Stream([c, handle] + t) == open + Stream(t[1..]);
  }

  /** Collection, handle and kind open every stream. */
  lemma StreamOpens(c: Collection, change: Change)
    ensures var kind :=
        match change
        case Add(_, _, _, _, _, _) => "add"
        case Remove(_, _, _, _) => "remove"
        case SetFlags(_, _, _) => "set-flags"
        case Update(_, _, _) => "update";
      c + [NUL] + change.handle + [NUL] + kind + [NUL] <= Stream(Fields(c, change))
  {
    hide Stream, SetFields, FlagFields, OriginFields, OptionFields;
    StreamOpensWith(c, change.handle, TargetFields(change));
  }

  /** The stream of an update and of a remove, to the last byte. */
  lemma StreamSpelled(c: Collection, handle: Handle, body: Hash, link: Option<LinkId>, ifMatch: Option<Revision>)
    ensures Stream(Fields(c, Update(handle, body, ifMatch))) ==
      c + [NUL] + (handle + [NUL] + ("update" + [NUL] + (body + [NUL])))
    ensures Stream(Fields(c, Remove(handle, None, link, ifMatch))) ==
      c + [NUL] + (handle + [NUL] + ("remove" + [NUL] + ("0" + [NUL])))
    ensures Stream(Fields(c, Remove(handle, Some(body), link, ifMatch))) ==
      c + [NUL] + (handle + [NUL] + ("remove" + [NUL] + ("1" + [NUL] + (body + [NUL]))))
  {
    hide Stream;
    EmptyStream();
    StreamOfTwo(c, handle, ["update", body]);
    StreamOfTwo("update", body, []);
    assert ["update", body] + [] == ["update", body];
    StreamOfTwo(c, handle, ["remove"] + ["0"]);
    StreamOfTwo("remove", "0", []);
    assert ["remove"] + ["0"] == ["remove", "0"] + [];
    StreamOfTwo(c, handle, ["remove"] + ["1", body]);
    StreamHead(["remove"] + ["1", body]);
    assert (["remove"] + ["1", body])[1..] == ["1", body] + [];
    StreamOfTwo("1", body, []);
  }

  lemma EmptyStream()
    ensures Stream([]) == ""
  {
  }

  /** A flag set is spelled `known`, its count, then its flags in code point order; an unread one `unknown`. */
  lemma FlagsSpelled(marks: set<string>)
    ensures FlagFields(Unknown) == ["unknown"]
    ensures FlagFields(Known({})) == ["known", "0"]
    ensures FlagFields(Known(marks))[..2] == ["known", Decimal(|marks|)]
    ensures StrictlyAscending(FlagFields(Known(marks))[2..])
    ensures forall m :: m in FlagFields(Known(marks))[2..] <==> m in marks
  {
    assert FlagFields(Known(marks))[2..] == Ascending(marks);
    assert Ascending({}) == [];
    assert Decimal(0) == "0";
  }

  /** The count is in decimal: reading it back gives the number. */
  function ReadDecimal(s: string): int {
    if s == "" then 0 else 10 * ReadDecimal(s[..|s| - 1]) + (s[|s| - 1] as int - '0' as int)
  }

  lemma {:induction false} DecimalReads(n: nat)
    ensures ReadDecimal(Decimal(n)) == n
    ensures forall c :: c in Decimal(n) ==> '0' <= c <= '9'
  {
    if n >= 10 {
      DecimalReads(n / 10);
      var s := Decimal(n);
      assert s[..|s| - 1] == Decimal(n / 10);
    } else {
      assert Decimal(n)[..0] == "";
    }
  }

  // ---------- The key ----------

  /** FNV-1a of sixty-four bits: its constants, and the byte mixed in before the state is multiplied. */
  lemma IsFnv1a(byte: char)
    ensures OFFSET == 14695981039346656037 && PRIME == 1099511628211 && WIDTH == 18446744073709551616
    ensures Fold(OFFSET, "") == OFFSET
    ensures Step(0, byte) == byte as int * PRIME % WIDTH
  {
    XorFromZero(byte as int);
  }

  lemma {:induction false} XorFromZero(a: nat)
    ensures Xor(0, a) == a
  {
    if a > 0 {
      XorFromZero(a / 2);
    }
  }

  function HexDigit(c: char): int {
    if '0' <= c <= '9' then c as int - '0' as int else c as int - 'a' as int + 10
  }

  function ReadHex(s: string): int {
    if s == "" then 0 else 16 * ReadHex(s[..|s| - 1]) + HexDigit(s[|s| - 1])
  }

  lemma HexDigitReads(d: nat)
    requires d < 16
    ensures HexDigit(HEX[d]) == d && ('0' <= HEX[d] <= '9' || 'a' <= HEX[d] <= 'f')
  {
  }

  lemma {:induction false} HexReads(value: nat, digits: nat)
    requires value < Pow2(4 * digits)
    ensures ReadHex(HexOf(value, digits)) == value
    ensures forall c :: c in HexOf(value, digits) ==> '0' <= c <= '9' || 'a' <= c <= 'f'
  {
    if digits > 0 {
      PowSum(4 * (digits - 1), 4);
      SmallPowers();
      HexReads(value / 16, digits - 1);
      HexDigitReads(value % 16);
      var s := HexOf(value, digits);
      assert s[..|s| - 1] == HexOf(value / 16, digits - 1) && s[|s| - 1] == HEX[value % 16];
      hide Pow2;
    }
  }

  /** A key reads back as the digest, in sixteen lowercase hexadecimal digits. */
  lemma KeyReads(stream: string)
    ensures |KeyOf(stream)| == 16 && ReadHex(KeyOf(stream)) == Fold(OFFSET, stream)
    ensures forall c :: c in KeyOf(stream) ==> '0' <= c <= '9' || 'a' <= c <= 'f'
  {
    WidthIsPower();
    hide Fold, HexOf;
    HexReads(Fold(OFFSET, stream), 16);
  }
}
