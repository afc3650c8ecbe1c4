/** fileNameClean: turning a title into a name that is safe as one path
    segment. */
module FileNames {
  import opened Text

  /** The characters fileNameClean refuses in a file name, in the order it
      replaces them. */
  const InvalidChars: string := "/\\:"

  /** Every character of `s` that occurs in `bad` replaced by '-'. With a
      one-character `bad` this is strings.NewReplacer(c, "-").Replace. */
  function ReplaceWithDash(s: string, bad: string): (r: string)
    ensures |r| == |s|
  {
    seq(|s|, i requires 0 <= i < |s| => if s[i] in bad then '-' else s[i])
  }

  /** Drops the leading whitespace. */
  function TrimLeft(s: string): (r: string)
    ensures |r| <= |s|
  {
    if s != [] && IsSpace(s[0]) then TrimLeft(s[1..]) else s
  }

  /** Drops the trailing whitespace. */
  function TrimRight(s: string): (r: string)
    ensures |r| <= |s|
  {
    if s != [] && IsSpace(s[|s| - 1]) then TrimRight(s[..|s| - 1]) else s
  }

  /** TrimLeft drops a prefix made of whitespace only, and what it keeps
      does not start with whitespace. */
  lemma {:induction false} TrimLeftSpec(s: string)
    ensures var r := TrimLeft(s);
      && r == s[|s| - |r|..]
      && (forall i :: 0 <= i < |s| - |r| ==> IsSpace(s[i]))
      && (r == [] || !IsSpace(r[0]))
  {
    if s != [] && IsSpace(s[0]) {
      TrimLeftSpec(s[1..]);
    }
  }

  /** TrimRight drops a suffix made of whitespace only, and what it keeps
      does not end with whitespace. */
  lemma {:induction false} TrimRightSpec(s: string)
    ensures var r := TrimRight(s);
      && r == s[..|r|]
      && (forall i :: |r| <= i < |s| ==> IsSpace(s[i]))
      && (r == [] || !IsSpace(r[|r| - 1]))
  {
    if s != [] && IsSpace(s[|s| - 1]) {
      TrimRightSpec(s[..|s| - 1]);
    }
  }

  /** strings.TrimSpace. */
  function TrimSpace(s: string): (r: string)
    ensures |r| <= |s|
  {
    TrimRight(TrimLeft(s))
  }

  /** `r` is `s[a..b]`, and everything `s` has before `a` and from `b` on is
      whitespace. */
  predicate TrimmedSlice(s: string, r: string, a: nat, b: nat) {
    && a <= b <= |s| && r == s[a..b]
    && (forall i :: 0 <= i < a ==> IsSpace(s[i]))
    && (forall i :: b <= i < |s| ==> IsSpace(s[i]))
  }

  /** TrimSpace removes only surrounding whitespace: it keeps a slice of
      `s` whose cut-off ends are all whitespace and which itself neither
      starts nor ends with whitespace. */
  lemma TrimSpaceSpec(s: string)
    ensures var r := TrimSpace(s);
      && (r == [] || (!IsSpace(r[0]) && !IsSpace(r[|r| - 1])))
      && (forall c :: c in r ==> c in s)
      && (exists a, b :: TrimmedSlice(s, r, a, b))
  {
    var l := TrimLeft(s);
    var r := TrimRight(l);
    TrimLeftSpec(s);
    TrimRightSpec(l);
    assert r != [] ==> r[0] == l[0];
    InSlice(s, |s| - |l|, |s|);
    InSlice(l, 0, |r|);
    TrimSpaceSlice(s);
  }

  lemma TrimSpaceSlice(s: string)
    ensures TrimmedSlice(s, TrimSpace(s), |s| - |TrimLeft(s)|, |s| - |TrimLeft(s)| + |TrimSpace(s)|)
  {
    var l := TrimLeft(s);
    var r := TrimRight(l);
    TrimLeftSpec(s);
    TrimRightSpec(l);
    var a := |s| - |l|;
    var b := a + |r|;
    assert l == s[a..];
    assert r == s[a..b];
    forall i | b <= i < |s|
      ensures IsSpace(s[i])
    {
      assert s[i] == l[i - a];
    }
  }

  lemma InSlice(s: string, a: nat, b: nat)
    requires a <= b <= |s|
    ensures forall c :: c in s[a..b] ==> c in s
  {
    forall c | c in s[a..b]
      ensures c in s
    {
      var j :| 0 <= j < b - a && s[a..b][j] == c;
      assert s[a + j] == c;
    }
  }

  /** What fileNameClean returns: each '/', '\' and ':' replaced by '-',
      then the surrounding whitespace trimmed. */
  function Clean(s: string): (r: string)
    ensures |r| <= |s|
  {
    TrimSpace(ReplaceWithDash(s, InvalidChars))
  }

  /** A cleaned name holds no '/', '\\' or ':' and neither starts nor ends
      with whitespace; it is a slice of `s` with those characters turned
      into '-' and only whitespace cut off at either end. */
  lemma CleanSpec(s: string)
    ensures var r := Clean(s);
      && (forall i :: 0 <= i < |r| ==> r[i] !in InvalidChars)
      && (r == [] || (!IsSpace(r[0]) && !IsSpace(r[|r| - 1])))
      && (exists a, b :: TrimmedSlice(ReplaceWithDash(s, InvalidChars), r, a, b))
  {
    var dashed := ReplaceWithDash(s, InvalidChars);
    assert forall c :: c in dashed ==> c !in InvalidChars;
    TrimSpaceSpec(dashed);
  }

  /** Where a cleaned name sits in the original: the cut-off ends of `s` are
      whitespace, and each kept character is the original one, or '-' where
      the original is '/', '\\' or ':'. */
  lemma CleanIsDashedSlice(s: string)
    ensures exists a: nat, b: nat :: a <= b <= |s| && CleanedFrom(s, Clean(s), a, b)
  {
    CleanSpec(s);
    var dashed := ReplaceWithDash(s, InvalidChars);
    var a, b :| TrimmedSlice(dashed, Clean(s), a, b);
    assert !IsSpace('-');
    assert forall i :: 0 <= i < |s| && IsSpace(dashed[i]) ==> IsSpace(s[i]);
    assert CleanedFrom(s, Clean(s), a, b);
  }

  predicate CleanedFrom(s: string, r: string, a: nat, b: nat)
    requires a <= b <= |s|
  {
    && |r| == b - a
    && (forall i :: 0 <= i < a ==> IsSpace(s[i]))
    && (forall i :: b <= i < |s| ==> IsSpace(s[i]))
    && (forall k :: 0 <= k < |r| ==> r[k] == if s[a + k] in InvalidChars then '-' else s[a + k])
  }

  /** fileNameClean as the source writes it: one replacement pass per
      refused character, then the trim. */
  method FileNameClean(s: string) returns (r: string)
    ensures r == Clean(s)
  {
    var ret := s;
    for i := 0 to |InvalidChars|
      invariant ret == ReplaceWithDash(s, InvalidChars[..i])
    {
      var c := InvalidChars[i];
      assert InvalidChars[..i + 1] == InvalidChars[..i] + [c];
      ret := ReplaceWithDash(ret, [c]);
    }
    assert InvalidChars[..|InvalidChars|] == InvalidChars;
    r := TrimSpace(ret);
  }

  lemma TrimSpaceKeepsTrimmed(s: string)
    requires s == [] || (!IsSpace(s[0]) && !IsSpace(s[|s| - 1]))
    ensures TrimSpace(s) == s
  {
  }

  /** A name that is already safe is its own cleaned form. */
  lemma CleanKeepsSafeNames(s: string)
    requires forall i :: 0 <= i < |s| ==> s[i] !in InvalidChars
    requires s == [] || (!IsSpace(s[0]) && !IsSpace(s[|s| - 1]))
    ensures Clean(s) == s
  {
    assert ReplaceWithDash(s, InvalidChars) == s;
    TrimSpaceKeepsTrimmed(s);
  }

  lemma {:induction false} CleanIdempotent(s: string)
    ensures Clean(Clean(s)) == Clean(s)
  {
    CleanSpec(s);
    CleanKeepsSafeNames(Clean(s));
  }
}
