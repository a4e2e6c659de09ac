/** Link ids: the keys identities are filed under, and how a free one is minted. */
module Keys {
  import opened Entities

  const RESERVED := ["alt:", "hash:", "dup:", "part:", "file:", "esc:"]

  predicate StartsWithAny(text: string, prefixes: seq<string>) {
    exists i :: 0 <= i < |prefixes| && prefixes[i] <= text
  }

  function FromHint(hint: string): LinkId {
    if StartsWithAny(hint, RESERVED) then "esc:" + hint else hint
  }

  function Stated(key: LinkId): string {
    if "esc:" <= key then key[4..] else key
  }

  predicate IsDerived(key: LinkId) {
    StartsWithAny(key, ["alt:", "hash:", "dup:"])
  }

  /** The handle a create of `key` is staged under: U+0001 and the key. */
  function Provisional(key: LinkId): Handle {
    "\U{0001}" + key
  }

  /** The key a second copy of an identity takes. */
  function Minted(key: LinkId, handle: Handle): LinkId {
    "dup:" + key + "#" + handle
  }

  /** The taken keys a mint has not outgrown: what is left for `Claim` to run into. */
  ghost function InReach(taken: set<LinkId>, key: LinkId): set<LinkId> {
    set k | k in taken && |k| >= |key|
  }

  lemma MintLeavesReach(taken: set<LinkId>, key: LinkId, handle: Handle)
    requires key in taken
    ensures InReach(taken, Minted(key, handle)) < InReach(taken, key)
  {
    assert |Minted(key, handle)| > |key|;
    assert key in InReach(taken, key) && key !in InReach(taken, Minted(key, handle));
  }

  /** `key` while free, else the first of its repeated mints over `handle` that is. */
  function Claim(key: LinkId, handle: Handle, taken: set<LinkId>): (r: LinkId)
    ensures r !in taken
    ensures r == key <==> key !in taken
    ensures |key| <= |r|
    decreases InReach(taken, key)
  {
    if key !in taken then key
    else
      MintLeavesReach(taken, key, handle);
      Claim(Minted(key, handle), handle, taken)
  }

  /** The source's loop: it stops for every finite `taken`, on the key `Claim` names. */
  method ClaimKey(hint: LinkId, handle: Handle, taken: set<LinkId>) returns (key: LinkId)
    ensures key !in taken
    ensures key == hint <==> hint !in taken
    ensures key == Claim(hint, handle, taken)
  {
    key := hint;
    while key in taken
      invariant Claim(key, handle, taken) == Claim(hint, handle, taken)
      decreases InReach(taken, key)
    {
      MintLeavesReach(taken, key, handle);
      key := Minted(key, handle);
    }
  }

  /** The one escape is stripped and no more, so a server reads back what a body states. */
  lemma StatedInvertsFromHint(hint: string)
    ensures Stated(FromHint(hint)) == hint
    ensures !IsDerived(FromHint(hint))
  {
    if StartsWithAny(hint, RESERVED) {
      var key := "esc:" + hint;
      assert key[0] == 'e';
      assert key[4..] == hint;
    } else {
      assert RESERVED[0] == "alt:" && RESERVED[1] == "hash:" && RESERVED[2] == "dup:" && RESERVED[5] == "esc:";
    }
  }

  lemma FromHintInjective(a: string, b: string)
    requires FromHint(a) == FromHint(b)
    ensures a == b
  {
    StatedInvertsFromHint(a);
    StatedInvertsFromHint(b);
  }

  lemma ProvisionalInjective(a: LinkId, b: LinkId)
    requires Provisional(a) == Provisional(b)
    ensures a == b
  {
    assert Provisional(a)[1..] == a && Provisional(b)[1..] == b;
  }
}

/** The element-wise three-way merge of flag sets. */
module FlagMerge {
  import opened Entities

  function Merge(base: Flags, local: Flags, remote: Flags): Flags {
    match (local, remote)
    case (Unknown, _) => remote
    case (_, Unknown) => local
    case (Known(l), Known(r)) =>
      var b := if base.Known? then base.marks else {};
      Known(l * r + (l - b) + (r - b))
  }
}
