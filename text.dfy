/**
 * The string operations the core applies to identifiers, file names and
 * sharing URLs: Python's `str.replace`, `str.strip`, `str.upper`,
 * `str.split("/")[-1]` and a case-insensitive search.
 */
module Text {

  /** The characters Python's `str.isspace` accepts, which `str.strip()` removes. */
  predicate IsSpace(c: char) {
    var n := c as int;
    (9 <= n <= 13) || (28 <= n <= 32) || n == 0x85 || n == 0xA0 || n == 0x1680
    || (0x2000 <= n <= 0x200A) || n == 0x2028 || n == 0x2029 || n == 0x202F
    || n == 0x205F || n == 0x3000
  }

  predicate IsLower(c: char) { 'a' <= c <= 'z' }

  /** `str.upper` on one character, for the ASCII letters. */
  function UpperChar(c: char): char {
    if IsLower(c) then (c as int - 32) as char else c
  }

  /** `str.upper`, for the ASCII letters. */
  function Upper(s: string): string {
    seq(|s|, i requires 0 <= i < |s| => UpperChar(s[i]))
  }

  /** `s.replace(" ", "")`. */
  function RemoveSpaces(s: string): (r: string)
    ensures ' ' !in r
    ensures |r| <= |s|
    ensures forall c :: c != ' ' ==> multiset(r)[c] == multiset(s)[c]
  {
    if s == [] then []
    else
      assert s == [s[0]] + s[1..];
      (if s[0] == ' ' then [] else [s[0]]) + RemoveSpaces(s[1..])
  }

  /** `str.lstrip()`. */
  function LStrip(s: string): (r: string)
    ensures r == [] || !IsSpace(r[0])
    ensures |r| <= |s| && r == s[|s| - |r|..]
    ensures AllSpace(s[..|s| - |r|])
  {
    if s != [] && IsSpace(s[0]) then
      var r := LStrip(s[1..]);
      assert s[..|s| - |r|] == [s[0]] + s[1..][..|s| - 1 - |r|];
      r
    else
      assert s[..0] == [];
      s
  }

  /** `str.rstrip()`. */
  function RStrip(s: string): (r: string)
    ensures r == [] || !IsSpace(r[|r| - 1])
    ensures |r| <= |s| && r == s[..|r|]
    ensures AllSpace(s[|r|..])
  {
    if s != [] && IsSpace(s[|s| - 1]) then
      var r := RStrip(s[..|s| - 1]);
      assert s[|r|..] == s[..|s| - 1][|r|..] + [s[|s| - 1]];
      r
    else
      assert s[|s|..] == [];
      s
  }

  /** `str.strip()`: whitespace removed at both ends. */
  function Strip(s: string): string {
    RStrip(LStrip(s))
  }

  /** Whether `p` occurs in `s` starting at index `i`. */
  predicate OccursAt(s: string, p: string, i: int) {
    0 <= i && i + |p| <= |s| && s[i..i + |p|] == p
  }

  /** Whether `p` occurs in `s` as a contiguous run of characters. */
  predicate Contains(s: string, p: string) {
    exists i | 0 <= i <= |s| :: OccursAt(s, p, i)
  }

  /** A case-insensitive search of `p` in `s` (`re.search(p, s, re.IGNORECASE)` on a literal `p`). */
  predicate ContainsIgnoreCase(s: string, p: string) {
    Contains(Upper(s), Upper(p))
  }

  /** The port token the sharing URLs lose before they are handed out. */
  const Port: string := ":5001"

  /** `url.replace(":5001", "")`: every occurrence removed, scanning left to right. */
  function StripPort(s: string): (r: string)
    ensures |r| <= |s|
    decreases |s|
  {
    if |s| < |Port| then s
    else if s[..|Port|] == Port then StripPort(s[|Port|..])
    else [s[0]] + StripPort(s[1..])
  }

  /** `s.split("/")[-1]`: what follows the last slash, or all of `s` if it has none. */
  function LastSegment(s: string): string {
    if s == [] then []
    else if s[|s| - 1] == '/' then []
    else LastSegment(s[..|s| - 1]) + [s[|s| - 1]]
  }

  /** The last segment is a suffix of `s` with no slash in it. */
  lemma {:induction false} LastSegmentSuffix(s: string)
    ensures var r := LastSegment(s);
            && '/' !in r
            && |r| <= |s| && r == s[|s| - |r|..]
  {
    if s != [] && s[|s| - 1] != '/' {
      var init := s[..|s| - 1];
      LastSegmentSuffix(init);
      var r0 := LastSegment(init);
      var c := [s[|s| - 1]];
      assert LastSegment(s) == r0 + c;
      assert s == init + c;
      assert s[|s| - |r0| - 1..] == init[|init| - |r0|..] + c;
    }
  }

  /** Whatever comes just before the last segment is a slash. */
  lemma {:induction false} LastSegmentAfterItsSlash(s: string)
    ensures var r := LastSegment(s);
            |r| < |s| ==> s[|s| - |r| - 1] == '/'
  {
    if s != [] && s[|s| - 1] != '/' {
      var init := s[..|s| - 1];
      LastSegmentAfterItsSlash(init);
      var r0 := LastSegment(init);
      assert LastSegment(s) == r0 + [s[|s| - 1]];
      assert |r0| < |init| ==> s[|s| - |r0| - 2] == init[|init| - |r0| - 1];
    }
  }

  /**
   * Stripping cuts a run of whitespace from the start of the input and
   * another from the end of what is left, and nothing else.
   */
  lemma StripCuts(s: string)
    ensures var l, r := LStrip(s), Strip(s);
            && |r| <= |l| <= |s| && l == s[|s| - |l|..] && r == l[..|r|]
            && AllSpace(s[..|s| - |l|]) && AllSpace(l[|r|..])
  {
  }

  /** What stripping leaves: no whitespace at either end, and only characters of the input. */
  lemma StripBounds(s: string)
    ensures var r := Strip(s); r == [] || (!IsSpace(r[0]) && !IsSpace(r[|r| - 1]))
    ensures forall c :: c in Strip(s) ==> c in s
  {
    var l := LStrip(s);
    assert forall c :: c in l ==> c in s;
  }

  /**
   * Upper-casing moves each lower-case letter 32 code points down, to its
   * capital, and keeps every other character where it is.
   */
  lemma UpperChars(s: string)
    ensures |Upper(s)| == |s|
    ensures forall i :: 0 <= i < |s| && !IsLower(s[i]) ==> Upper(s)[i] == s[i]
    ensures forall i :: 0 <= i < |s| && IsLower(s[i]) ==> Upper(s)[i] as int == s[i] as int - 32 && 'A' <= Upper(s)[i] <= 'Z'
  {
  }

  /** Upper-casing leaves no lower-case letter and keeps spaces and whitespace where they are. */
  lemma UpperKeeps(s: string)
    ensures ' ' in Upper(s) ==> ' ' in s
    ensures forall i :: 0 <= i < |s| ==> (IsSpace(Upper(s)[i]) <==> IsSpace(s[i]))
    ensures forall i :: 0 <= i < |s| ==> !IsLower(Upper(s)[i])
  {
  }

  /** Stripping text with no lower-case letter leaves none. */
  lemma StripNoLower(s: string)
    requires forall i :: 0 <= i < |s| ==> !IsLower(s[i])
    ensures forall i :: 0 <= i < |Strip(s)| ==> !IsLower(Strip(s)[i])
  {
    StripCuts(s);
    var l, r := LStrip(s), Strip(s);
    var k := |s| - |l|;
    forall i | 0 <= i < |r|
      ensures !IsLower(r[i])
    {
      assert r[i] == l[i] == s[k + i];
    }
  }

  /** Text with no whitespace at either end. */
  predicate Trimmed(s: string) {
    s == [] || (!IsSpace(s[0]) && !IsSpace(s[|s| - 1]))
  }

  /** Removing spaces leaves text without spaces as it is. */
  lemma {:induction false} RemoveSpacesNoSpace(s: string)
    requires ' ' !in s
    ensures RemoveSpaces(s) == s
  {
    if s != [] {
      assert ' ' !in s[1..] by {
        forall c | c in s[1..] ensures c in s { }
      }
      RemoveSpacesNoSpace(s[1..]);
      assert s == [s[0]] + s[1..];
    }
  }

  /** Stripping leaves trimmed text as it is. */
  lemma StripTrimmed(s: string)
    requires Trimmed(s)
    ensures Strip(s) == s
  {
    assert LStrip(s) == s;
  }

  // ----- Upper-casing commutes with the other normalisation steps -----

  lemma {:induction false} UpperRemoveSpaces(s: string)
    ensures Upper(RemoveSpaces(s)) == RemoveSpaces(Upper(s))
  {
    if s != [] {
      var c, t := s[0], s[1..];
      var head: string := if c == ' ' then [] else [c];
      assert s == [c] + t;
      UpperRemoveSpaces(t);
      UpperAppend([c], t);
      RemoveSpacesCons(c, t);
      RemoveSpacesCons(UpperChar(c), Upper(t));
      UpperAppend(head, RemoveSpaces(t));
    }
  }

  lemma UpperAppend(a: string, b: string)
    ensures Upper(a + b) == Upper(a) + Upper(b)
  {
    assert forall i :: 0 <= i < |a| ==> (a + b)[i] == a[i];
    assert forall i :: |a| <= i < |a + b| ==> (a + b)[i] == b[i - |a|];
  }

  lemma RemoveSpacesCons(c: char, t: string)
    ensures RemoveSpaces([c] + t) == (if c == ' ' then [] else [c]) + RemoveSpaces(t)
  {
    assert ([c] + t)[0] == c && ([c] + t)[1..] == t;
  }

  lemma {:induction false} UpperLStrip(s: string)
    ensures Upper(LStrip(s)) == LStrip(Upper(s))
  {
    if s != [] {
      var u := Upper(s);
      assert u[0] == UpperChar(s[0]);
      if IsSpace(s[0]) {
        assert u[1..] == Upper(s[1..]);
        UpperLStrip(s[1..]);
        assert LStrip(s) == LStrip(s[1..]) && LStrip(u) == LStrip(u[1..]);
      }
    }
  }

  lemma {:induction false} UpperRStrip(s: string)
    ensures Upper(RStrip(s)) == RStrip(Upper(s))
  {
    if s != [] {
      assert Upper(s)[|s| - 1] == UpperChar(s[|s| - 1]);
      if IsSpace(s[|s| - 1]) {
        assert Upper(s)[..|s| - 1] == Upper(s[..|s| - 1]);
        UpperRStrip(s[..|s| - 1]);
      }
    }
  }

  lemma UpperIdempotent(s: string)
    ensures Upper(Upper(s)) == Upper(s)
  {
  }

  // ----- Removing spaces and stripping -----

  lemma {:induction false} RemoveSpacesAppend(a: string, b: string)
    ensures RemoveSpaces(a + b) == RemoveSpaces(a) + RemoveSpaces(b)
  {
    if a != [] {
      assert (a + b)[0] == a[0];
      assert (a + b)[1..] == a[1..] + b;
      RemoveSpacesAppend(a[1..], b);
    } else {
      assert a + b == b;
    }
  }

  /** Removing spaces drops a space inserted between two strings. */
  lemma RemoveSpacesAround(a: string, b: string)
    ensures RemoveSpaces(a + " " + b) == RemoveSpaces(a) + RemoveSpaces(b)
  {
    var space := " ";
    assert space[0] == ' ' && space[1..] == [];
    assert RemoveSpaces(space) == [] + RemoveSpaces([]);
    RemoveSpacesAppend(a, space);
    RemoveSpacesAppend(a + space, b);
  }

  predicate AllSpace(w: string) {
    forall i :: 0 <= i < |w| ==> IsSpace(w[i])
  }

  lemma {:induction false} RemoveSpacesKeepsAllSpace(w: string)
    requires AllSpace(w)
    ensures AllSpace(RemoveSpaces(w))
  {
    if w != [] {
      RemoveSpacesKeepsAllSpace(w[1..]);
    }
  }

  lemma {:induction false} LStripSpacePrefix(w: string, t: string)
    requires AllSpace(w)
    ensures LStrip(w + t) == LStrip(t)
  {
    if w != [] {
      assert (w + t)[0] == w[0];
      assert (w + t)[1..] == w[1..] + t;
      LStripSpacePrefix(w[1..], t);
    } else {
      assert w + t == t;
    }
  }

  lemma {:induction false} RStripSpaceSuffix(t: string, w: string)
    requires AllSpace(w)
    ensures RStrip(t + w) == RStrip(t)
  {
    if w != [] {
      assert (t + w)[..|t + w| - 1] == t + w[..|w| - 1];
      RStripSpaceSuffix(t, w[..|w| - 1]);
    } else {
      assert t + w == t;
    }
  }

  /** Stripping ignores whitespace added at either end. */
  lemma {:induction false} StripIgnoresPadding(w1: string, t: string, w2: string)
    requires AllSpace(w1) && AllSpace(w2)
    ensures Strip(w1 + t + w2) == Strip(t)
  {
    assert w1 + t + w2 == w1 + (t + w2);
    LStripSpacePrefix(w1, t + w2);
    var l := LStrip(t);
    if l == [] {
      // t is whitespace only, so what remains after the left strip is all whitespace
      assert AllSpace(t) by { LStripEmptyAllSpace(t); }
      assert AllSpace(t + w2);
      LStripSpacePrefix(t + w2, []);
      assert t + w2 + [] == t + w2;
    } else {
      LStripAppend(t, w2);
      RStripSpaceSuffix(l, w2);
    }
  }

  /** Removing spaces and then stripping ignores whitespace added at either end. */
  lemma StripCompactIgnoresPadding(w1: string, s: string, w2: string)
    requires AllSpace(w1) && AllSpace(w2)
    ensures Strip(RemoveSpaces(w1 + s + w2)) == Strip(RemoveSpaces(s))
  {
    var c1, c, c2 := RemoveSpaces(w1), RemoveSpaces(s), RemoveSpaces(w2);
    RemoveSpacesAppend(w1 + s, w2);
    RemoveSpacesAppend(w1, s);
    RemoveSpacesKeepsAllSpace(w1);
    RemoveSpacesKeepsAllSpace(w2);
    StripIgnoresPadding(c1, c, c2);
  }

  lemma LStripEmptyAllSpace(t: string)
    requires LStrip(t) == []
    ensures AllSpace(t)
  {
    assert t[..|t| - |LStrip(t)|] == t;
  }

  lemma {:induction false} LStripAppend(t: string, u: string)
    requires LStrip(t) != []
    ensures LStrip(t + u) == LStrip(t) + u
  {
    assert t != [] && (t + u)[0] == t[0];
    if IsSpace(t[0]) {
      assert (t + u)[1..] == t[1..] + u;
      assert LStrip(t) == LStrip(t[1..]);
      LStripAppend(t[1..], u);
    } else {
      assert LStrip(t) == t;
    }
  }

  // ----- Port stripping -----

  /**
   * Appending text that has no colon and starts with a slash (a URL path)
   * never creates or hides a port token: stripping distributes over it.
   */
  lemma {:induction false} StripPortAppendPath(p: string, q: string)
    requires q == [] || q[0] == '/'
    requires ':' !in q
    ensures StripPort(p + q) == StripPort(p) + q
    decreases |p|
  {
    var s := p + q;
    if p == [] {
      assert s == q;
      StripPortNoColon(q);
    } else if |s| < |Port| {
    } else if s[..|Port|] == Port {
      PortNeedsRoom(p, q);
      assert p[..|Port|] == Port;
      assert s[|Port|..] == p[|Port|..] + q;
      StripPortAppendPath(p[|Port|..], q);
    } else {
      assert s[1..] == p[1..] + q;
      StripPortAppendPath(p[1..], q);
      if |p| >= |Port| {
        assert p[..|Port|] == s[..|Port|];
      }
    }
  }

  /** A port token cannot begin in `p` and run into a following slash. */
  lemma PortNeedsRoom(p: string, q: string)
    requires q == [] || q[0] == '/'
    ensures |p| < |Port| <= |p + q| ==> (p + q)[..|Port|] != Port
  {
    if |p| < |Port| <= |p + q| {
      assert (p + q)[..|Port|][|p|] == q[0];
    }
  }

  /** Text with no colon holds no port token and is left as it is. */
  lemma {:induction false} StripPortNoColon(s: string)
    requires ':' !in s
    ensures StripPort(s) == s
    decreases |s|
  {
    if |s| >= |Port| {
      assert s[..|Port|][0] == s[0];
      assert s[..|Port|] != Port;
      StripPortNoColon(s[1..]);
    }
  }

  /** Text with no occurrence of the port token is left as it is. */
  lemma {:induction false} StripPortIdentity(s: string)
    requires !Contains(s, Port)
    ensures StripPort(s) == s
    decreases |s|
  {
    if |s| >= |Port| {
      assert !OccursAt(s, Port, 0);
      assert s[0..0 + |Port|] == s[..|Port|];
      PortFreeTail(s);
      StripPortIdentity(s[1..]);
    }
  }

  /**
   * A host given with the port token loses it, whatever path follows: the
   * host may hold colons (a scheme, say), only not the port token itself.
   */
  lemma {:induction false} StripPortAfterHost(host: string, path: string)
    requires !Contains(host, Port)
    requires path == [] || path[0] == '/'
    requires ':' !in path
    ensures StripPort(host + Port + path) == host + path
    decreases |host|
  {
    var s := host + Port + path;
    if host == [] {
      assert s == Port + path;
      assert s[..|Port|] == Port;
      assert s[|Port|..] == path;
      StripPortNoColon(path);
    } else {
      PortNotAtHostStart(host, path);
      assert s[1..] == host[1..] + Port + path;
      PortFreeTail(host);
      StripPortAfterHost(host[1..], path);
    }
  }

  /** Text free of the port token stays free of it without its first character. */
  lemma PortFreeTail(s: string)
    requires s != [] && !Contains(s, Port)
    ensures !Contains(s[1..], Port)
  {
    forall i | OccursAt(s[1..], Port, i)
      ensures OccursAt(s, Port, i + 1)
    {
      assert s[1..][i..i + |Port|] == s[i + 1..i + 1 + |Port|];
    }
  }

  /** No port token starts at the first character of a non-empty host free of it. */
  lemma PortNotAtHostStart(host: string, path: string)
    requires host != [] && !Contains(host, Port)
    ensures var s := host + Port + path; s[..|Port|] != Port
  {
    var s := host + Port + path;
    if |host| >= |Port| {
      assert s[..|Port|] == host[0..0 + |Port|];
      assert !OccursAt(host, Port, 0);
    } else {
      var k := |host|;
      assert s[k] == ':';
      assert s[..|Port|][k] == ':' != Port[k];
    }
  }

  // ----- Last path segment -----

  /** The last segment of `prefix + "/" + id` is `id` when `id` has no slash. */
  lemma LastSegmentAfterSlash(prefix: string, id: string)
    requires '/' !in id
    ensures LastSegment(prefix + "/" + id) == id
  {
    var s := prefix + "/" + id;
    LastSegmentSuffix(s);
    LastSegmentAfterItsSlash(s);
    assert s[|s| - |id| - 1] == '/';
  }
}
