/** Searching in byte strings, as std::find, std::search and isspace do it. */
module Text {
  datatype Option<+T> = None | Some(value: T)

  predicate IsCrlfAt(s: string, i: nat) {
    i + 2 <= |s| && s[i] == '\r' && s[i + 1] == '\n'
  }

  /** The first position of CR LF, or None: std::search over the two-byte pattern. */
  function FindCrlf(s: string): (r: Option<nat>)
    ensures r.Some? ==> r.value + 2 <= |s|
  {
    FindCrlfFrom(s, 0)
  }

  function FindCrlfFrom(s: string, start: nat): (r: Option<nat>)
    requires start <= |s|
    ensures r.Some? ==> start <= r.value && r.value + 2 <= |s|
    decreases |s| - start
  {
    if IsCrlfAt(s, start) then Some(start)
    else if start == |s| then None
    else FindCrlfFrom(s, start + 1)
  }

  /** The first position of c, or the length of s (std::find's end iterator). */
  function Find(s: string, c: char): (i: nat)
    ensures i <= |s|
  {
    if s == "" || s[0] == c then 0 else 1 + Find(s[1..], c)
  }

  lemma {:induction false} FindCrlfFromMeaning(s: string, start: nat)
    requires start <= |s|
    ensures var r := FindCrlfFrom(s, start);
            if r.Some? then IsCrlfAt(s, r.value) && forall j: nat :: start <= j < r.value ==> !IsCrlfAt(s, j)
            else forall j: nat :: start <= j ==> !IsCrlfAt(s, j)
    decreases |s| - start
  {
    if !IsCrlfAt(s, start) && start < |s| {
      FindCrlfFromMeaning(s, start + 1);
    }
  }

  lemma FindCrlfMeaning(s: string)
    ensures var r := FindCrlf(s);
            if r.Some? then IsCrlfAt(s, r.value) && forall j: nat :: j < r.value ==> !IsCrlfAt(s, j)
            else forall j: nat :: !IsCrlfAt(s, j)
  {
    FindCrlfFromMeaning(s, 0);
  }

  lemma {:induction false} FindMeaning(s: string, c: char)
    ensures var i := Find(s, c);
            (i < |s| ==> s[i] == c) && forall j :: 0 <= j < i ==> s[j] != c
  {
    if s != "" && s[0] != c {
      FindMeaning(s[1..], c);
      var i := Find(s[1..], c);
      assert forall j :: 0 < j <= i ==> s[j] == s[1..][j - 1];
    }
  }

  predicate IsSpace(c: char) {
    c == ' ' || c == '\t' || c == '\n' || c == '\r' || c as int == 11 || c as int == 12
  }

  /** isspace of the C locale: the space, and the codes 9 to 13. */
  lemma SpacesAre(c: char)
    ensures IsSpace(c) <==> c as int == 32 || 9 <= c as int <= 13
  {
  }

  /** s without its leading white space. */
  function TrimLeft(s: string): string {
    if s == "" || !IsSpace(s[0]) then s else TrimLeft(s[1..])
  }

  /** s without its trailing white space. */
  function TrimRight(s: string): string {
    if s == "" || !IsSpace(s[|s| - 1]) then s else TrimRight(s[..|s| - 1])
  }

  predicate AllSpace(s: string) { forall c :: c in s ==> IsSpace(c) }

  /** A position is the result of FindCrlf exactly when it is the first CR LF. */
  lemma FindCrlfIsFirst(s: string, i: nat)
    requires IsCrlfAt(s, i) && forall j: nat :: j < i ==> !IsCrlfAt(s, j)
    ensures FindCrlf(s) == Some(i)
  {
    FindCrlfMeaning(s);
    var r := FindCrlf(s);
    assert r.Some?;
    assert !(i < r.value) && !(r.value < i);
  }

  /** Appending bytes never moves a CR LF that is already there. */
  lemma FindCrlfStable(a: string, b: string)
    requires FindCrlf(a).Some?
    ensures FindCrlf(a + b) == FindCrlf(a)
  {
    FindCrlfMeaning(a);
    var i := FindCrlf(a).value;
    assert IsCrlfAt(a + b, i);
    forall j: nat | j < i
      ensures !IsCrlfAt(a + b, j)
    {
      assert !IsCrlfAt(a, j);
    }
    FindCrlfIsFirst(a + b, i);
  }

  /** A line without CR LF, terminated by CR LF, is found whole, whatever follows. */
  lemma FindCrlfAfterLine(line: string, rest: string)
    requires FindCrlf(line).None?
    ensures FindCrlf(line + "\r\n" + rest) == Some(|line|)
  {
    FindCrlfMeaning(line);
    var s := line + "\r\n" + rest;
    assert IsCrlfAt(s, |line|);
    forall j: nat | j < |line|
      ensures !IsCrlfAt(s, j)
    {
      assert !IsCrlfAt(line, j);
    }
    FindCrlfIsFirst(s, |line|);
  }

  lemma FindIsFirst(s: string, c: char, i: nat)
    requires i < |s| && s[i] == c && forall j :: 0 <= j < i ==> s[j] != c
    ensures Find(s, c) == i
  {
    FindMeaning(s, c);
  }

  /** Splitting at the first c undoes joining with c. */
  lemma SplitAtFirst(a: string, c: char, b: string)
    requires c !in a
    ensures var s := a + [c] + b;
            Find(s, c) == |a| < |s| && s[..|a|] == a && s[|a| + 1..] == b
  {
    FindIsFirst(a + [c] + b, c, |a|);
  }

  /** Cutting at the first c, and joining again. */
  lemma CutAtFirst(s: string, c: char)
    requires Find(s, c) < |s|
    ensures var i := Find(s, c);
            c !in s[..i] && s == s[..i] + [c] + s[i + 1..]
  {
    FindMeaning(s, c);
  }

  lemma FindMissing(s: string, c: char)
    requires c !in s
    ensures Find(s, c) == |s|
  {
    FindMeaning(s, c);
  }

  lemma ConcatSplit(a: string, b: string, i: nat)
    requires i <= |b|
    ensures a + b[..i] + b[i..] == a + b
  {
    assert b[..i] + b[i..] == b;
    assert a + b[..i] + b[i..] == a + (b[..i] + b[i..]);
  }

  lemma {:induction false} TrimLeftOf(pad: string, core: string)
    requires AllSpace(pad)
    requires core != "" ==> !IsSpace(core[0])
    ensures TrimLeft(pad + core) == core
  {
    if pad == "" {
      assert pad + core == core;
    } else {
      assert IsSpace(pad[0]);
      assert (pad + core)[1..] == pad[1..] + core;
      TrimLeftOf(pad[1..], core);
    }
  }

  lemma {:induction false} TrimRightOf(core: string, pad: string)
    requires AllSpace(pad)
    requires core != "" ==> !IsSpace(core[|core| - 1])
    ensures TrimRight(core + pad) == core
  {
    if pad == "" {
      assert core + pad == core;
    } else {
      var last := |pad| - 1;
      assert IsSpace(pad[last]);
      assert (core + pad)[..|core + pad| - 1] == core + pad[..last];
      TrimRightOf(core, pad[..last]);
    }
  }
}
