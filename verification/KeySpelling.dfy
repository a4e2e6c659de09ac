/** The spelling of keys and names, fixed by the store so that a rebuilt replica derives them again. */
module KeySpelling {
  import opened Keys
  import opened Base32
  import opened CodecModel

  /** A hint is escaped exactly when it begins with one of the six reserved prefixes. */
  lemma EscapedIff(hint: string)
    ensures FromHint(hint) == (if Reserved(hint) then "esc:" + hint else hint)
    ensures IsDerived(hint) <==> "alt:" <= hint || "hash:" <= hint || "dup:" <= hint
  {
    assert RESERVED[0] == "alt:" && RESERVED[1] == "hash:" && RESERVED[2] == "dup:";
    assert RESERVED[3] == "part:" && RESERVED[4] == "file:" && RESERVED[5] == "esc:";
    var derived := ["alt:", "hash:", "dup:"];
    assert derived[0] == "alt:" && derived[1] == "hash:" && derived[2] == "dup:";
  }

  predicate Reserved(hint: string) {
    || "alt:" <= hint || "hash:" <= hint || "dup:" <= hint
    || "part:" <= hint || "file:" <= hint || "esc:" <= hint
  }

  /** A mint names the hint, then the handle, and is a derived key; a provisional handle is the key behind U+0001. */
  lemma MintSpelled(key: string, handle: string)
    ensures Minted(key, handle) == "dup:" + (key + ("#" + handle)) && IsDerived(Minted(key, handle))
    ensures Provisional(key) == ['\U{0001}'] + key
  {
    EscapedIff(Minted(key, handle));
  }

  /** The letters of an object name are those of the alphabet. */
  lemma NameCharIff(c: char)
    ensures IsNameChar(c) <==> c in ALPHABET
    ensures ALPHABET == "abcdefghijklmnopqrstuvwxyz234567" && NAME_LENGTH == 52
  {
    if IsNameChar(c) {
      assert ALPHABET[Digit(c)] == c;
    }
    if c in ALPHABET {
      var i :| 0 <= i < |ALPHABET| && ALPHABET[i] == c;
      DigitOf(i);
    }
  }

  /** A flag is printable ASCII with no space in it. */
  lemma FlagIff(flag: string)
    ensures IsFlag(flag) <==> flag != "" && forall c :: c in flag ==> 0x21 <= c as int <= 0x7e
  {
    if IsFlag(flag) {
      forall c | c in flag
        ensures 0x21 <= c as int <= 0x7e
      {
        var i :| 0 <= i < |flag| && flag[i] == c;
      }
    }
    if forall c :: c in flag ==> 0x21 <= c as int <= 0x7e {
      assert forall i :: 0 <= i < |flag| ==> flag[i] in flag;
    }
  }

  // ---------- Capability names ----------

  predicate CapabilityChar(c: char) {
    'a' <= c <= 'z' || '0' <= c <= '9' || c == '-' || c == '.'
  }

  /** The characters of the grammar, no period first, last or beside another. */
  ghost predicate Dotted(name: string) {
    && name != "" && name[0] != '.' && name[|name| - 1] != '.'
    && (forall i :: 0 <= i < |name| ==> CapabilityChar(name[i]))
    && (forall i :: 0 <= i < |name| - 1 ==> name[i] == '.' ==> name[i + 1] != '.')
  }

  lemma WordIsDotted(word: string)
    requires IsWord(word)
    ensures Dotted(word) && forall i :: 0 <= i < |word| ==> word[i] != '.'
  {
  }

  lemma JoinedIsDotted(word: string, rest: string)
    requires Dotted(word) && (forall i :: 0 <= i < |word| ==> word[i] != '.') && Dotted(rest)
    ensures Dotted(word + ['.'] + rest)
  {
    var name, n := word + ['.'] + rest, |word|;
    assert forall i :: 0 <= i < n ==> name[i] == word[i];
    assert forall i :: n < i < |name| ==> name[i] == rest[i - n - 1];
    forall i | 0 <= i < |name| - 1 && name[i] == '.'
      ensures name[i + 1] != '.'
    {
      assert i >= n && name[i + 1] == rest[i - n];
      assert i > n ==> rest[i - n - 1] == '.';
    }
  }

  lemma {:induction false} WordsAreDotted(name: string)
    requires AreWords(name)
    ensures Dotted(name)
  {
    hide Dotted, IsWord;
    var word := FirstWord(name);
    WordIsDotted(word);
    if |word| < |name| {
      var rest := name[|word| + 1..];
      WordsAreDotted(rest);
      assert name == word + ['.'] + rest;
      JoinedIsDotted(word, rest);
    } else {
      assert name == word;
    }
  }

  lemma {:induction false} DottedAreWords(name: string)
    requires Dotted(name)
    ensures AreWords(name)
    decreases |name|
  {
    var word := FirstWord(name);
    assert forall i :: 0 <= i < |word| ==> word[i] == name[i] && word[i] in word;
    if |word| < |name| {
      assert name[|word|] == '.';
      var rest := name[|word| + 1..];
      assert |word| + 1 < |name| && rest[0] == name[|word| + 1];
      assert forall i :: 0 <= i < |rest| ==> rest[i] == name[|word| + 1 + i];
      DottedAreWords(rest);
    }
  }

  /** A capability name, by its characters: the grammar's, periods between words alone, a letter first. */
  lemma CapabilityIff(name: string)
    ensures IsCapabilityName(name) <==> Dotted(name) && 'a' <= name[0] <= 'z'
  {
    if AreWords(name) {
      WordsAreDotted(name);
    }
    if Dotted(name) {
      DottedAreWords(name);
    }
  }
}
