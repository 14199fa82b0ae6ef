/** The few PHP string primitives the install drop-in leans on: truthiness,
    trim(), explode() and str_replace(). Strings are sequences of characters.
    PHP works on UTF-8 bytes, but every character these primitives compare
    against (the trimmed set, the ',' and '/' separators, the two
    placeholders) is ASCII, and UTF-8 byte order equals code-point order, so
    the results agree with PHP's on any text, the Finnish welcome included. */
module Php {

  /** A value that may be missing: an undefined constant, an unset site option. */
  datatype Option<T> = None | Some(value: T)

  /** Truthiness of a PHP string: exactly "" and "0" are false. `empty($s)` is
      its negation. */
  predicate Truthy(s: string) {
    s != "" && s != "0"
  }

  /** The characters trim() strips when no character list is given:
      space, tab, line feed, carriage return, NUL and vertical tab. */
  predicate IsTrimmable(c: char) {
    c == ' ' || c == '\t' || c == '\n' || c == '\r' || c == 0 as char || c == 11 as char
  }

  /** Where the text starts once the trimmable characters from position `i`
      on are skipped, as ltrim() does from the front. */
  function TrimStart(s: string, i: nat): (j: nat)
    requires i <= |s|
    ensures i <= j <= |s|
    decreases |s| - i
  {
    if i < |s| && IsTrimmable(s[i]) then TrimStart(s, i + 1) else i
  }

  /** Everything TrimStart skips is trimmable and it stops at a character
      that is not. */
  lemma {:induction false} TrimStartSpec(s: string, i: nat)
    requires i <= |s|
    ensures forall k :: i <= k < TrimStart(s, i) ==> IsTrimmable(s[k])
    ensures TrimStart(s, i) == |s| || !IsTrimmable(s[TrimStart(s, i)])
    decreases |s| - i
  {
    if i < |s| && IsTrimmable(s[i]) {
      TrimStartSpec(s, i + 1);
    }
  }

  /** Where the text ends once the trimmable characters before position `j`
      are dropped, as rtrim() does from the back, going no lower than `lo`. */
  function TrimEnd(s: string, lo: nat, j: nat): (e: nat)
    requires lo <= j <= |s|
    ensures lo <= e <= j
    decreases j
  {
    if lo < j && IsTrimmable(s[j - 1]) then TrimEnd(s, lo, j - 1) else j
  }

  /** Everything TrimEnd drops is trimmable and it stops after a character
      that is not, or at `lo`. */
  lemma {:induction false} TrimEndSpec(s: string, lo: nat, j: nat)
    requires lo <= j <= |s|
    ensures forall k :: TrimEnd(s, lo, j) <= k < j ==> IsTrimmable(s[k])
    ensures TrimEnd(s, lo, j) == lo || !IsTrimmable(s[TrimEnd(s, lo, j) - 1])
    decreases j
  {
    if lo < j && IsTrimmable(s[j - 1]) {
      TrimEndSpec(s, lo, j - 1);
    }
  }

  /** trim(): the slice of `s` between the first and the last character that
      is not trimmable. */
  function Trim(s: string): string {
    var i := TrimStart(s, 0);
    s[i..TrimEnd(s, i, |s|)]
  }

  /** What trim() leaves is a slice of `s`; everything removed is trimmable
      and neither end of what is left is. */
  lemma TrimSpec(s: string)
    ensures var r := Trim(s);
      var i := TrimStart(s, 0);
      && i + |r| <= |s|
      && r == s[i..i + |r|]
      && (forall k :: 0 <= k < i ==> IsTrimmable(s[k]))
      && (forall k :: i + |r| <= k < |s| ==> IsTrimmable(s[k]))
      && (r == [] || (!IsTrimmable(r[0]) && !IsTrimmable(r[|r| - 1])))
  {
    var i := TrimStart(s, 0);
    TrimStartSpec(s, 0);
    TrimEndSpec(s, i, |s|);
  }

  /** Trimming twice strips nothing more. */
  lemma TrimIdempotent(s: string)
    ensures Trim(Trim(s)) == Trim(s)
  {
    var t := Trim(s);
    TrimSpec(s);
    assert TrimStart(t, 0) == 0;
    assert TrimEnd(t, 0, |t|) == |t|;
    assert t[0..|t|] == t;
  }

  /** explode($sep, $s) with a one-character separator: the pieces between
      the separators, at least one (explode of "" is [""]). */
  function Explode(sep: char, s: string): (parts: seq<string>)
    ensures |parts| >= 1
  {
    if s == [] then [[]]
    else
      var rest := Explode(sep, s[1..]);
      if s[0] == sep then [[]] + rest else [[s[0]] + rest[0]] + rest[1..]
  }

  /** No piece of explode() holds the separator. */
  lemma {:induction false} ExplodeNoSeparator(sep: char, s: string)
    ensures forall i :: 0 <= i < |Explode(sep, s)| ==> sep !in Explode(sep, s)[i]
  {
    if s != [] {
      ExplodeNoSeparator(sep, s[1..]);
    }
  }

  /** implode($sep, $parts): the inverse of Explode. */
  function Implode(sep: char, parts: seq<string>): string
  {
    if |parts| == 0 then []
    else if |parts| == 1 then parts[0]
    else parts[0] + [sep] + Implode(sep, parts[1..])
  }

  /** Joining the pieces of explode() with the separator gives back the string. */
  lemma {:induction false} ImplodeExplode(sep: char, s: string)
    ensures Implode(sep, Explode(sep, s)) == s
  {
    if s != [] {
      var rest := Explode(sep, s[1..]);
      ImplodeExplode(sep, s[1..]);
      if s[0] == sep {
        assert ([[]] + rest)[1..] == rest;
      } else {
        var parts := [[s[0]] + rest[0]] + rest[1..];
        if |rest| == 1 {
          assert parts == [[s[0]] + rest[0]];
        } else {
          assert parts[1..] == rest[1..];
          assert Implode(sep, rest) == rest[0] + [sep] + Implode(sep, rest[1..]);
        }
      }
    }
  }

  /** A prefix free of separators belongs wholly to the first piece. */
  lemma {:induction false} ExplodePrefix(sep: char, p: string, t: string)
    requires sep !in p
    ensures Explode(sep, p + t) == [p + Explode(sep, t)[0]] + Explode(sep, t)[1..]
  {
    if p != [] {
      assert (p + t)[0] == p[0] && (p + t)[1..] == p[1..] + t;
      ExplodePrefix(sep, p[1..], t);
      assert [p[0]] + (p[1..] + Explode(sep, t)[0]) == p + Explode(sep, t)[0];
    } else {
      var e := Explode(sep, t);
      assert p + t == t && p + e[0] == e[0];
      assert e == [e[0]] + e[1..];
    }
  }

  /** Splitting a join of separator-free pieces gives back those pieces. */
  lemma {:induction false} ExplodeImplode(sep: char, parts: seq<string>)
    requires |parts| >= 1
    requires forall i :: 0 <= i < |parts| ==> sep !in parts[i]
    ensures Explode(sep, Implode(sep, parts)) == parts
  {
    if |parts| == 1 {
      ExplodePrefix(sep, parts[0], []);
      assert parts[0] + [] == parts[0];
    } else {
      var tail := Implode(sep, parts[1..]);
      ExplodeImplode(sep, parts[1..]);
      var t := [sep] + tail;
      assert t[0] == sep && t[1..] == tail;
      assert Explode(sep, t) == [[]] + parts[1..];
      assert parts[0] + [sep] + tail == parts[0] + t;
      ExplodePrefix(sep, parts[0], t);
      assert parts[0] + [] == parts[0];
    }
  }

  /** The first piece of explode() is the longest separator-free prefix:
      it is followed by a separator or by the end of the string. */
  lemma {:induction false} ExplodeHead(sep: char, s: string)
    ensures var h := Explode(sep, s)[0];
      h <= s && sep !in h && (|h| == |s| || s[|h|] == sep)
  {
    if s != [] && s[0] != sep {
      ExplodeHead(sep, s[1..]);
    }
  }

  /** `s` holds `t` at position `k`. */
  predicate OccursAt(s: string, t: string, k: nat) {
    k + |t| <= |s| && s[k..k + |t|] == t
  }

  /** strstr($s, $t) !== false, for a non-empty `t`. */
  predicate Contains(s: string, t: string) {
    exists k: nat | k <= |s| :: OccursAt(s, t, k)
  }

  /** str_replace($search, $replace, $s): every occurrence of `search`,
      scanned left to right without overlap, becomes `replacement`; an empty
      `search` leaves the subject alone. */
  function Replace(s: string, search: string, replacement: string): (r: string)
    ensures search == [] ==> r == s
    decreases |s|
  {
    if search == [] || |s| < |search| then s
    else if s[..|search|] == search then replacement + Replace(s[|search|..], search, replacement)
    else [s[0]] + Replace(s[1..], search, replacement)
  }

  /** A subject without the search string comes back unchanged. */
  lemma {:induction false} ReplaceAbsent(s: string, search: string, replacement: string)
    requires !Contains(s, search)
    ensures Replace(s, search, replacement) == s
    decreases |s|
  {
    if search != [] && |s| >= |search| {
      assert !OccursAt(s, search, 0);
      assert s[0..|search|] == s[..|search|];
      forall k: nat
        ensures !OccursAt(s[1..], search, k)
      {
        if OccursAt(s[1..], search, k) {
          assert s[1..][k..k + |search|] == s[k + 1..k + 1 + |search|];
          assert OccursAt(s, search, k + 1);
        }
      }
      ReplaceAbsent(s[1..], search, replacement);
      assert s == [s[0]] + s[1..];
    }
  }

  /** One step of the scan: a match at the front is replaced, otherwise the
      front character is kept. */
  lemma ReplaceStep(s: string, search: string, replacement: string)
    requires search != [] && |s| >= |search|
    ensures s[..|search|] == search ==>
      Replace(s, search, replacement) == replacement + Replace(s[|search|..], search, replacement)
    ensures s[..|search|] != search ==>
      Replace(s, search, replacement) == [s[0]] + Replace(s[1..], search, replacement)
  {
  }

  /** The first occurrence is replaced and the scan goes on after it: when
      `search` first occurs right after `a`, the result is `a`, the
      replacement, and the replaced rest. */
  lemma {:induction false} ReplaceFirst(a: string, search: string, b: string, replacement: string)
    requires search != []
    requires !Contains(a + search[..|search| - 1], search)
    ensures Replace(a + search + b, search, replacement) == a + replacement + Replace(b, search, replacement)
    decreases |a|
  {
    var s := a + search + b;
    var n := |search|;
    if a == [] {
      assert s[..n] == search && s[n..] == b;
      ReplaceStep(s, search, replacement);
    } else {
      var head := a + search[..n - 1];
      var tail := a[1..] + search[..n - 1];
      ShiftAbsent(head, search);
      assert tail == head[1..];
      assert s[..n] == head[..n];
      assert !OccursAt(head, search, 0);
      var rest := a[1..] + search + b;
      assert s[1..] == rest;
      ReplaceStep(s, search, replacement);
      ReplaceFirst(a[1..], search, b, replacement);
      assert a == [a[0]] + a[1..];
    }
  }

  /** Dropping the first character cannot create an occurrence. */
  lemma ShiftAbsent(s: string, t: string)
    requires s != [] && !Contains(s, t)
    ensures !Contains(s[1..], t)
  {
    forall k: nat
      ensures !OccursAt(s[1..], t, k)
    {
      if OccursAt(s[1..], t, k) {
        assert s[1..][k..k + |t|] == s[k + 1..k + 1 + |t|];
        assert OccursAt(s, t, k + 1);
      }
    }
  }

  /** A character that `t` does not hold splits the subject: an occurrence
      of `t` cannot span it, so it lies wholly on one side. */
  lemma ContainsSplit(x: string, c: char, y: string, t: string)
    requires c !in t
    requires !Contains(x, t) && !Contains(y, t)
    ensures !Contains(x + [c] + y, t)
  {
    var s := x + [c] + y;
    forall k: nat
      ensures !OccursAt(s, t, k)
    {
      if OccursAt(s, t, k) {
        if k + |t| <= |x| {
          assert s[k..k + |t|] == x[k..k + |t|];
          assert OccursAt(x, t, k);
        } else if k > |x| {
          assert s[k..k + |t|] == y[k - |x| - 1..k - |x| - 1 + |t|];
          assert OccursAt(y, t, k - |x| - 1);
        } else {
          OccurrenceHolds(s, t, k, |x|);
        }
      }
    }
  }

  /** An occurrence of `t` at `k` holds each of its characters in place. */
  lemma OccurrenceHolds(s: string, t: string, k: nat, i: nat)
    requires OccursAt(s, t, k) && k <= i < k + |t|
    ensures s[i] in t
  {
    assert s[k..k + |t|][i - k] == s[i];
  }

  /** A string shorter than `t` does not contain it. */
  lemma ShortAbsent(s: string, t: string)
    requires |s| < |t|
    ensures !Contains(s, t)
  {
  }

  /** A search string holds its own first character, so a subject without
      that character does not contain it. */
  lemma ContainsFirst(s: string, t: string)
    requires t != [] && Contains(s, t)
    ensures t[0] in s
  {
    var k: nat :| k <= |s| && OccursAt(s, t, k);
    assert s[k..k + |t|][0] == s[k];
  }

  /** Before a placeholder `t` that follows `lead` and a quote, `t` cannot
      start, when `lead` lacks it and `t` holds no quote. */
  lemma AbsentBeforeQuoted(lead: string, t: string)
    requires t != [] && '"' !in t && !Contains(lead, t)
    ensures !Contains(lead + ['"'] + t[..|t| - 1], t)
  {
    ShortAbsent(t[..|t| - 1], t);
    ContainsSplit(lead, '"', t[..|t| - 1], t);
  }

  /** A string that starts with a quote and a '>' and goes on with `rest`
      holds `t` only where `rest` does, when `t` holds neither. */
  lemma AbsentAfterQuoted(rest: string, t: string)
    requires t != [] && '"' !in t && '>' !in t && !Contains(rest, t)
    ensures !Contains(['"', '>'] + rest, t)
  {
    ShortAbsent([], t);
    ContainsSplit([], '>', rest, t);
    ContainsSplit([], '"', [] + ['>'] + rest, t);
    assert ['"', '>'] + rest == [] + ['"'] + ([] + ['>'] + rest);
  }

  /** The first str_replace() of a link template `lead"u">n tail` puts `url`
      in place of the placeholder `u` between the quotes, when `u` holds
      neither quote nor '>' and occurs nowhere else. */
  lemma FillLinkTarget(lead: string, tail: string, u: string, n: string, url: string)
    requires u != [] && '"' !in u && '>' !in u
    requires !Contains(lead, u) && !Contains(n + tail, u)
    ensures Replace(lead + ['"'] + u + ['"', '>'] + n + tail, u, url)
         == lead + ['"'] + url + ['"', '>'] + n + tail
  {
    var before := lead + ['"'];
    var after := ['"', '>'] + (n + tail);
    AbsentBeforeQuoted(lead, u);
    ReplaceFirst(before, u, after, url);
    AbsentAfterQuoted(n + tail, u);
    ReplaceAbsent(after, u, url);
    assert lead + ['"'] + u + ['"', '>'] + n + tail == before + u + after;
    assert lead + ['"'] + url + ['"', '>'] + n + tail == before + url + after;
  }

  /** Before a placeholder `t` that follows `lead"url">`, `t` cannot start,
      when neither `lead` nor `url` holds it and it holds no quote or '>'. */
  lemma AbsentBeforeLinkText(lead: string, url: string, t: string)
    requires t != [] && '"' !in t && '>' !in t
    requires !Contains(lead, t) && !Contains(url, t)
    ensures !Contains(lead + ['"'] + url + ['"', '>'] + t[..|t| - 1], t)
  {
    var short := t[..|t| - 1];
    ShortAbsent(short, t);
    ShortAbsent([], t);
    ContainsSplit([], '>', short, t);
    ContainsSplit(url, '"', [] + ['>'] + short, t);
    ContainsSplit(lead, '"', url + ['"'] + ([] + ['>'] + short), t);
    assert lead + ['"'] + url + ['"', '>'] + short == lead + ['"'] + (url + ['"'] + ([] + ['>'] + short));
  }

  /** The second str_replace() of the link puts `name` in place of the
      placeholder `n` after the '>', when `n` holds neither quote nor '>' and
      occurs nowhere else, the URL put in first included. */
  lemma FillLinkText(lead: string, tail: string, n: string, url: string, name: string)
    requires n != [] && '"' !in n && '>' !in n
    requires !Contains(lead, n) && !Contains(tail, n) && !Contains(url, n)
    ensures Replace(lead + ['"'] + url + ['"', '>'] + n + tail, n, name)
         == lead + ['"'] + url + ['"', '>'] + name + tail
  {
    var before := lead + ['"'] + url + ['"', '>'];
    AbsentBeforeLinkText(lead, url, n);
    ReplaceFirst(before, n, tail, name);
    ReplaceAbsent(tail, n, name);
    assert lead + ['"'] + url + ['"', '>'] + n + tail == before + n + tail;
    assert lead + ['"'] + url + ['"', '>'] + name + tail == before + name + tail;
  }
}
