// Python's built-in str operations that the modelled code relies on:
// strip/rstrip, join, `in`, replace, str.format with keyword fields,
// str(int), ASCII lower() and slicing with a possibly negative start.
module PyStr {
  import opened Wrappers

  /** The code points for which Python's str.isspace() holds (str.strip() removes these). */
  const Spaces: set<char> := {
    ' ', '\t', '\n', '\r', '\U{0B}', '\U{0C}', '\U{1C}', '\U{1D}', '\U{1E}', '\U{1F}',
    '\U{85}', '\U{A0}', '\U{1680}', '\U{2000}', '\U{2001}', '\U{2002}', '\U{2003}',
    '\U{2004}', '\U{2005}', '\U{2006}', '\U{2007}', '\U{2008}', '\U{2009}', '\U{200A}',
    '\U{2028}', '\U{2029}', '\U{202F}', '\U{205F}', '\U{3000}'
  }

  predicate IsSpace(c: char)
  {
    c in Spaces
  }

  // ---------------------------------------------------------------- strip

  /** s.lstrip(chars): drops the longest prefix made of characters in `cs`. */
  function LStripSet(s: string, cs: set<char>): (r: string)
    ensures |r| <= |s| && r == s[|s| - |r|..]
    ensures r == [] || r[0] !in cs
    ensures forall i :: 0 <= i < |s| - |r| ==> s[i] in cs
  {
    if |s| > 0 && s[0] in cs then LStripSet(s[1..], cs) else s
  }

  /** s.rstrip(chars): drops the longest suffix made of characters in `cs`. */
  function RStripSet(s: string, cs: set<char>): (r: string)
    ensures |r| <= |s| && r == s[..|r|]
    ensures r == [] || r[|r| - 1] !in cs
    ensures forall i :: |r| <= i < |s| ==> s[i] in cs
  {
    if |s| > 0 && s[|s| - 1] in cs then RStripSet(s[..|s| - 1], cs) else s
  }

  /** Neither the first nor the last character is whitespace. */
  predicate Trimmed(s: string)
  {
    s == [] || (!IsSpace(s[0]) && !IsSpace(s[|s| - 1]))
  }

  /** s.strip(): no leading and no trailing whitespace; only whitespace was removed. */
  function Strip(s: string): (r: string)
    ensures |r| <= |s|
    ensures Trimmed(r)
  {
    RStripSet(LStripSet(s, Spaces), Spaces)
  }

  /** Where Strip(s) starts inside s. */
  function StripStart(s: string): (k: nat)
    ensures k <= |s|
  {
    |s| - |LStripSet(s, Spaces)|
  }

  lemma StripIsInnerSlice(s: string)
    ensures StripStart(s) + |Strip(s)| <= |s|
    ensures Strip(s) == s[StripStart(s)..StripStart(s) + |Strip(s)|]
    ensures forall i :: 0 <= i < StripStart(s) ==> IsSpace(s[i])
    ensures forall i :: StripStart(s) + |Strip(s)| <= i < |s| ==> IsSpace(s[i])
  {
    var l := LStripSet(s, Spaces);
    var r := RStripSet(l, Spaces);
    var k := |s| - |l|;
    assert l == s[k..];
    assert r == l[..|r|];
    forall i | k + |r| <= i < |s| ensures s[i] in Spaces {
      assert s[i] == l[i - k];
    }
  }

  /** A string that neither starts nor ends with whitespace is left as it is. */
  lemma StripNoop(s: string)
    requires Trimmed(s)
    ensures Strip(s) == s
  {
  }

  lemma StripIdempotent(s: string)
    ensures Strip(Strip(s)) == Strip(s)
  {
    StripNoop(Strip(s));
  }

  // ----------------------------------------------------------------- join

  /** sep.join(parts) */
  function Join(sep: string, parts: seq<string>): (r: string)
  {
    if |parts| == 0 then ""
    else if |parts| == 1 then parts[0]
    else parts[0] + sep + Join(sep, parts[1..])
  }

  lemma {:induction false} JoinLength(sep: string, parts: seq<string>)
    requires |parts| > 0
    ensures |Join(sep, parts)| == SumLengths(parts) + (|parts| - 1) * |sep|
  {
    if |parts| > 1 {
      JoinLength(sep, parts[1..]);
    }
  }

  function SumLengths(parts: seq<string>): nat
  {
    if parts == [] then 0 else |parts[0]| + SumLengths(parts[1..])
  }

  /** A joined sequence starts with its first part and ends with its last part. */
  lemma {:induction false} JoinEnds(sep: string, parts: seq<string>)
    requires |parts| > 0
    ensures |parts[0]| <= |Join(sep, parts)|
    ensures Join(sep, parts)[..|parts[0]|] == parts[0]
    ensures |parts[|parts| - 1]| <= |Join(sep, parts)|
    ensures Join(sep, parts)[|Join(sep, parts)| - |parts[|parts| - 1]|..] == parts[|parts| - 1]
  {
    if |parts| > 1 {
      JoinEnds(sep, parts[1..]);
      var rest := Join(sep, parts[1..]);
      assert Join(sep, parts) == parts[0] + sep + rest;
      assert parts[1..][|parts[1..]| - 1] == parts[|parts| - 1];
    }
  }

  /** Joining one more part appends the separator and that part. */
  lemma {:induction false} JoinSnoc(sep: string, parts: seq<string>, last: string)
    requires |parts| > 0
    ensures Join(sep, parts + [last]) == Join(sep, parts) + sep + last
  {
    if |parts| > 1 {
      assert (parts + [last])[1..] == parts[1..] + [last];
      JoinSnoc(sep, parts[1..], last);
    }
  }

  // ---------------------------------------------------------------- split

  /** s.split(c) for a one-character separator. */
  function Split(s: string, c: char): (r: seq<string>)
    ensures |r| >= 1
    ensures forall i, k :: 0 <= i < |r| && 0 <= k < |r[i]| ==> r[i][k] != c
  {
    if s == [] then [""]
    else
      var rest := Split(s[1..], c);
      if s[0] == c then [""] + rest else [[s[0]] + rest[0]] + rest[1..]
  }

  /** Splitting loses nothing: joining the parts again gives back the string. */
  lemma {:induction false} SplitJoin(s: string, c: char)
    ensures Join([c], Split(s, c)) == s
  {
    if s != [] {
      SplitJoin(s[1..], c);
      var rest := Split(s[1..], c);
      if s[0] == c {
        assert ([""] + rest)[1..] == rest;
      } else if |rest| > 1 {
        assert ([[s[0]] + rest[0]] + rest[1..])[1..] == rest[1..];
        assert Join([c], rest) == rest[0] + [c] + Join([c], rest[1..]);
      }
      assert [s[0]] + s[1..] == s;
    }
  }

  /** A string with no separator is one part. */
  lemma {:induction false} SplitNone(s: string, c: char)
    requires forall k :: 0 <= k < |s| ==> s[k] != c
    ensures Split(s, c) == [s]
  {
    if s != [] {
      SplitNone(s[1..], c);
      assert [s[0]] + s[1..] == s;
    }
  }

  /** Two separator-free strings joined by the separator split back into the two. */
  lemma {:induction false} SplitPair(a: string, b: string, c: char)
    requires forall k :: 0 <= k < |a| ==> a[k] != c
    requires forall k :: 0 <= k < |b| ==> b[k] != c
    ensures Split(a + [c] + b, c) == [a, b]
  {
    if a == [] {
      assert ([c] + b)[1..] == b;
      SplitNone(b, c);
    } else {
      assert (a + [c] + b)[1..] == a[1..] + [c] + b;
      SplitPair(a[1..], b, c);
      assert [a[0]] + a[1..] == a;
    }
  }

  // ----------------------------------------------------- substring search

  predicate OccursAt(s: string, sub: string, j: int)
  {
    0 <= j && j + |sub| <= |s| && s[j..j + |sub|] == sub
  }

  /** s.find(sub, i): the first occurrence of `sub` at or after `i`. */
  function FindFrom(s: string, sub: string, i: nat): (r: Option<nat>)
    decreases |s| - i
    ensures r.Some? ==> i <= r.value && OccursAt(s, sub, r.value)
    ensures r.Some? ==> forall j :: i <= j < r.value ==> !OccursAt(s, sub, j)
    ensures r.None? ==> forall j :: i <= j ==> !OccursAt(s, sub, j)
  {
    if i + |sub| > |s| then None
    else if s[i..i + |sub|] == sub then Some(i)
    else FindFrom(s, sub, i + 1)
  }

  function Find(s: string, sub: string): Option<nat>
  {
    FindFrom(s, sub, 0)
  }

  /** Python's `sub in s`. */
  predicate Contains(s: string, sub: string)
  {
    Find(s, sub).Some?
  }

  lemma ContainsIff(s: string, sub: string)
    ensures Contains(s, sub) <==> exists j :: OccursAt(s, sub, j)
  {
    if Find(s, sub).Some? {
      assert OccursAt(s, sub, Find(s, sub).value);
    }
  }

  /** A substring of a slice is a substring of the whole. */
  lemma ContainsSlice(s: string, i: nat, j: nat, sub: string)
    requires i <= j <= |s| && Contains(s[i..j], sub)
    ensures Contains(s, sub)
  {
    var q := Find(s[i..j], sub).value;
    assert s[i..j][q..q + |sub|] == s[i + q..i + q + |sub|];
    assert OccursAt(s, sub, i + q);
    ContainsIff(s, sub);
  }

  /** Stripping cannot create an occurrence. */
  lemma StripKeepsAbsent(s: string, sub: string)
    requires !Contains(s, sub)
    ensures !Contains(Strip(s), sub)
  {
    StripIsInnerSlice(s);
    if Contains(Strip(s), sub) {
      ContainsSlice(s, StripStart(s), StripStart(s) + |Strip(s)|, sub);
    }
  }

  predicate StartsWith(s: string, prefix: string)
  {
    |prefix| <= |s| && s[..|prefix|] == prefix
  }

  predicate EndsWith(s: string, suffix: string)
  {
    |suffix| <= |s| && s[|s| - |suffix|..] == suffix
  }

  // -------------------------------------------------------------- replace

  function DecCount(count: Option<nat>): Option<nat>
  {
    if count.Some? && count.value > 0 then Some(count.value - 1) else count
  }

  /** s.replace(pat, rep[, count]): non-overlapping, left to right; `None` replaces all. */
  function Replace(s: string, pat: string, rep: string, count: Option<nat>): string
    decreases |s|, if |pat| == 0 && |s| == 0 then 1 else 0
  {
    if count == Some(0) then s
    else if |pat| == 0 then
      (if |s| == 0 then rep else rep + [s[0]] + Replace(s[1..], pat, rep, DecCount(count)))
    else if |s| < |pat| then s
    else if s[..|pat|] == pat then rep + Replace(s[|pat|..], pat, rep, DecCount(count))
    else [s[0]] + Replace(s[1..], pat, rep, count)
  }

  /** Replacing a pattern that does not occur leaves the string unchanged. */
  lemma {:induction false} ReplaceAbsent(s: string, pat: string, rep: string, count: Option<nat>)
    requires |pat| > 0 && !Contains(s, pat)
    ensures Replace(s, pat, rep, count) == s
  {
    if count != Some(0) && |s| >= |pat| {
      assert !OccursAt(s, pat, 0);
      assert s[..|pat|] != pat;
      NotContainsTail(s, pat);
      ReplaceAbsent(s[1..], pat, rep, count);
    }
  }

  lemma NotContainsTail(s: string, pat: string)
    requires |s| > 0 && !Contains(s, pat)
    ensures !Contains(s[1..], pat)
  {
    if Contains(s[1..], pat) {
      var j := Find(s[1..], pat).value;
      assert s[1..][j..j + |pat|] == s[j + 1..j + 1 + |pat|];
      assert OccursAt(s, pat, j + 1);
      assert false;
    }
  }

  /** s.replace(pat, rep, 1) replaces exactly the first occurrence. */
  lemma {:induction false} ReplaceFirst(s: string, pat: string, rep: string, i: nat)
    requires |pat| > 0 && Find(s, pat) == Some(i)
    ensures i + |pat| <= |s|
    ensures Replace(s, pat, rep, Some(1)) == s[..i] + rep + s[i + |pat|..]
  {
    assert OccursAt(s, pat, i);
    if i == 0 {
      assert s[..|pat|] == pat;
      assert Replace(s, pat, rep, Some(1)) == rep + Replace(s[|pat|..], pat, rep, Some(0));
    } else {
      assert !OccursAt(s, pat, 0);
      assert s[..|pat|] != pat;
      FindShift(s, pat, i);
      var tail := s[1..];
      ReplaceFirst(tail, pat, rep, i - 1);
      assert Replace(s, pat, rep, Some(1)) == [s[0]] + Replace(tail, pat, rep, Some(1));
      assert s[..i] == [s[0]] + tail[..i - 1];
      assert s[i + |pat|..] == tail[i - 1 + |pat|..];
    }
  }

  lemma OccursShift(s: string, pat: string, j: nat)
    requires |s| > 0
    ensures OccursAt(s[1..], pat, j) <==> OccursAt(s, pat, j + 1)
  {
    if j + |pat| <= |s[1..]| {
      assert s[1..][j..j + |pat|] == s[j + 1..j + 1 + |pat|];
    }
  }

  /** The first occurrence is determined by where `sub` occurs and where it does not. */
  lemma {:induction false} FindFromIs(s: string, sub: string, i: nat, v: nat)
    requires i <= v && OccursAt(s, sub, v)
    requires forall j :: i <= j < v ==> !OccursAt(s, sub, j)
    ensures FindFrom(s, sub, i) == Some(v)
    decreases v - i
  {
    if i < v {
      assert !OccursAt(s, sub, i);
      FindFromIs(s, sub, i + 1, v);
    }
  }

  lemma FindShift(s: string, pat: string, i: nat)
    requires |pat| > 0 && Find(s, pat) == Some(i) && i > 0
    ensures Find(s[1..], pat) == Some(i - 1)
  {
    OccursShift(s, pat, i - 1);
    forall j | 0 <= j < i - 1 ensures !OccursAt(s[1..], pat, j) {
      OccursShift(s, pat, j);
    }
    FindFromIs(s[1..], pat, 0, i - 1);
  }

  // --------------------------------------------------------------- format

  /** The plain keyword field names the model resolves in `{name}`. */
  predicate PlainFieldName(name: string)
  {
    |name| > 0
    && (forall k :: 0 <= k < |name| ==> name[k] !in {'!', ':', '.', '[', '{'})
    && !(forall k :: 0 <= k < |name| ==> '0' <= name[k] <= '9')
  }

  predicate AllDigits(name: string)
  {
    forall k :: 0 <= k < |name| ==> '0' <= name[k] <= '9'
  }

  /** The first position at or after `i` holding `c`, or none. */
  function FindChar(t: string, c: char, i: nat): (r: Option<nat>)
    decreases |t| - i
    ensures r.Some? ==> i <= r.value < |t| && t[r.value] == c
    ensures r.Some? ==> forall k :: i <= k < r.value ==> t[k] != c
    ensures r.None? ==> forall k :: i <= k < |t| ==> t[k] != c
  {
    if i >= |t| then None else if t[i] == c then Some(i) else FindChar(t, c, i + 1)
  }

  function Cons(p: string, r: Result<string>): Result<string>
  {
    if r.Ok? then Ok(p + r.value) else r
  }

  /**
   * template.format(**fields) for templates whose replacement fields are plain
   * keyword names: `{{` and `}}` are literal braces, `{name}` is looked up
   * (KeyError when missing), `{}` and `{0}` ask for positional arguments
   * (IndexError), and a lone brace is a ValueError.
   */
  function Format(t: string, fields: map<string, string>): Result<string>
    decreases |t|
  {
    if t == [] then Ok([])
    else if t[0] == '{' then
      if |t| >= 2 && t[1] == '{' then Cons("{", Format(t[2..], fields))
      else if |t| == 1 then Err(ValueError("Single '{' encountered in format string"))
      else match FindChar(t, '}', 1)
        case None => Err(ValueError("expected '}' before end of string"))
        case Some(j) =>
          var name := t[1..j];
          if AllDigits(name) then Err(IndexError)
          else if !PlainFieldName(name) then Err(Unsupported)
          else if name !in fields then Err(KeyError)
          else Cons(fields[name], Format(t[j + 1..], fields))
    else if t[0] == '}' then
      if |t| >= 2 && t[1] == '}' then Cons("}", Format(t[2..], fields))
      else Err(ValueError("Single '}' encountered in format string"))
    else Cons([t[0]], Format(t[1..], fields))
  }

  predicate NoBraces(t: string)
  {
    forall k :: 0 <= k < |t| ==> t[k] != '{' && t[k] != '}'
  }

  /** Text without braces formats to itself, whatever the fields. */
  lemma {:induction false} FormatLiteral(t: string, fields: map<string, string>)
    requires NoBraces(t)
    ensures Format(t, fields) == Ok(t)
  {
    if t != [] {
      FormatLiteral(t[1..], fields);
      assert [t[0]] + t[1..] == t;
    }
  }

  /** Text, one known field, text: the field's value is spliced in. */
  lemma FormatOneField(pre: string, name: string, post: string, fields: map<string, string>)
    requires NoBraces(pre) && NoBraces(post) && PlainFieldName(name) && name in fields
    requires forall k :: 0 <= k < |name| ==> name[k] != '}'
    ensures Format(pre + "{" + name + "}" + post, fields) == Ok(pre + fields[name] + post)
  {
    var t := "{" + name + "}" + post;
    var whole := pre + t;
    assert whole == pre + "{" + name + "}" + post;
    FormatSkipLiteral(pre, t, fields);
    FormatField(name, post, fields);
    FormatLiteral(post, fields);
    assert Format(t, fields) == Ok(fields[name] + post);
    assert pre + (fields[name] + post) == pre + fields[name] + post;
  }

  lemma FormatField(name: string, post: string, fields: map<string, string>)
    requires PlainFieldName(name) && name in fields
    requires forall k :: 0 <= k < |name| ==> name[k] != '}'
    ensures Format("{" + name + "}" + post, fields) == Cons(fields[name], Format(post, fields))
  {
    var t := "{" + name + "}" + post;
    assert t[1] == name[0];
    FindCharAt(t, '}', 1, |name| + 1);
    assert t[1..|name| + 1] == name;
    assert t[|name| + 2..] == post;
  }

  lemma {:induction false} FindCharAt(t: string, c: char, i: nat, j: nat)
    requires i <= j < |t| && t[j] == c
    requires forall k :: i <= k < j ==> t[k] != c
    ensures FindChar(t, c, i) == Some(j)
    decreases j - i
  {
    if i < j {
      FindCharAt(t, c, i + 1, j);
    }
  }

  lemma {:induction false} FormatSkipLiteral(pre: string, rest: string, fields: map<string, string>)
    requires NoBraces(pre)
    ensures Format(pre + rest, fields) == Cons(pre, Format(rest, fields))
  {
    if pre != [] {
      assert (pre + rest)[0] == pre[0];
      assert (pre + rest)[1..] == pre[1..] + rest;
      FormatSkipLiteral(pre[1..], rest, fields);
      assert [pre[0]] + pre[1..] == pre;
      var r := Format(rest, fields);
      if r.Ok? {
        assert [pre[0]] + (pre[1..] + r.value) == pre + r.value;
      }
    } else {
      assert pre + rest == rest;
      var r := Format(rest, fields);
      if r.Ok? {
        assert pre + r.value == r.value;
      }
    }
  }

  // ------------------------------------------------------ str(int), lower

  function DigitChar(d: nat): char
    requires d < 10
  {
    "0123456789"[d]
  }

  function NatToString(n: nat): (r: string)
    ensures |r| > 0
    ensures forall k :: 0 <= k < |r| ==> '0' <= r[k] <= '9'
  {
    if n < 10 then [DigitChar(n)] else NatToString(n / 10) + [DigitChar(n % 10)]
  }

  /** str(i) for a Python int. */
  function IntToString(i: int): string
  {
    if i < 0 then "-" + NatToString(-i) else NatToString(i)
  }

  /** lower() on ASCII letters; other characters are kept. */
  function Lower(s: string): (r: string)
    ensures |r| == |s|
    ensures forall k :: 0 <= k < |s| ==> r[k] == (if 'A' <= s[k] <= 'Z' then (s[k] as int + 32) as char else s[k])
  {
    seq(|s|, k requires 0 <= k < |s| => if 'A' <= s[k] <= 'Z' then (s[k] as int + 32) as char else s[k])
  }

  // --------------------------------------------------------------- slices

  /** Python's s[start:] for any int start (a negative start counts from the end). */
  function SliceFrom<T>(s: seq<T>, start: int): (r: seq<T>)
    ensures |r| == (if start >= 0 then (if start >= |s| then 0 else |s| - start)
                    else (if -start >= |s| then |s| else -start))
    ensures r == s[|s| - |r|..]
  {
    if start >= 0 then (if start >= |s| then [] else s[start..])
    else (if -start >= |s| then s else s[|s| + start..])
  }

  /** Python's s[-k:] where k > 0: the last k elements, or all of them. */
  lemma LastK<T>(s: seq<T>, k: int)
    requires k > 0
    ensures SliceFrom(s, -k) == if k >= |s| then s else s[|s| - k..]
  {
  }

  /** s[-0:] is s[0:], the whole sequence. */
  lemma SliceFromZero<T>(s: seq<T>)
    ensures SliceFrom(s, 0) == s
  {
  }
}
