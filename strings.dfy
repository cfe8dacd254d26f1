/**
 * Python string operations the launcher relies on, with their Python
 * semantics written out: `str.strip`, `in`, `startswith`, `split(sep, 1)`,
 * `replace`, `join`, `lower`, `str(int)` and `hex`.
 */
module Strings {
  import opened Wrappers

  /** Python's `str.isspace()`, which is also what `\s` matches in a `re` pattern. */
  predicate IsSpace(c: char) {
    c == ' ' || ('\t' <= c <= '\r') || ('\U{1C}' <= c <= '\U{1F}')
    || c == '\U{85}' || c == '\U{A0}' || c == '\U{1680}'
    || ('\U{2000}' <= c <= '\U{200A}') || c == '\U{2028}' || c == '\U{2029}'
    || c == '\U{202F}' || c == '\U{205F}' || c == '\U{3000}'
  }

  /** `s.lstrip(chars)` where `drop` says which characters are in `chars`. */
  function TrimStart(s: string, drop: char -> bool): (r: string)
    ensures |r| <= |s| && r == s[|s| - |r|..]
    ensures forall i :: 0 <= i < |s| - |r| ==> drop(s[i])
    ensures r != [] ==> !drop(r[0])
    decreases |s|
  {
    if s != [] && drop(s[0]) then TrimStart(s[1..], drop) else s
  }

  /** `s.rstrip(chars)` where `drop` says which characters are in `chars`. */
  function TrimEnd(s: string, drop: char -> bool): (r: string)
    ensures |r| <= |s| && r == s[..|r|]
    ensures forall i :: |r| <= i < |s| ==> drop(s[i])
    ensures r != [] ==> !drop(r[|r| - 1])
    decreases |s|
  {
    if s != [] && drop(s[|s| - 1]) then TrimEnd(s[..|s| - 1], drop) else s
  }

  /** `s.strip()`: removes surrounding Unicode whitespace. */
  function Strip(s: string): (r: string)
    ensures |r| <= |s|
    ensures r != [] ==> !IsSpace(r[0]) && !IsSpace(r[|r| - 1])
    ensures (forall i :: 0 <= i < |s| ==> IsSpace(s[i])) <==> r == []
  {
    TrimEnd(TrimStart(s, IsSpace), IsSpace)
  }

  /** `s.strip(c)` for a single character `c`. */
  function StripChar(s: string, c: char): (r: string)
    ensures |r| <= |s|
    ensures r != [] ==> r[0] != c && r[|r| - 1] != c
  {
    TrimEnd(TrimStart(s, x => x == c), x => x == c)
  }

  /** Stripping a character from a string that neither starts nor ends with it changes nothing. */
  lemma StripCharIdentity(s: string, c: char)
    requires s == [] || (s[0] != c && s[|s| - 1] != c)
    ensures StripChar(s, c) == s
  {
    TrimStartKeeps(s, x => x == c);
    TrimEndKeeps(s, x => x == c);
  }

  /** `lstrip` leaves a string alone when its first character is kept. */
  lemma TrimStartKeeps(s: string, drop: char -> bool)
    requires s == [] || !drop(s[0])
    ensures TrimStart(s, drop) == s
  {
  }

  /** `rstrip` leaves a string alone when its last character is kept. */
  lemma TrimEndKeeps(s: string, drop: char -> bool)
    requires s == [] || !drop(s[|s| - 1])
    ensures TrimEnd(s, drop) == s
  {
  }

  /** A string is what `lstrip` removes followed by what it keeps. */
  lemma TrimStartParts(s: string, drop: char -> bool)
    ensures var k := |s| - |TrimStart(s, drop)|;
      s == s[..k] + TrimStart(s, drop) && forall i :: 0 <= i < k ==> drop(s[..k][i])
  {
    var r := TrimStart(s, drop);
    var k := |s| - |r|;
    SplitAt(s, k);
    PrefixAll(s, k, drop);
  }

  /** A sequence is its prefix followed by the rest. */
  lemma SplitAt<T>(s: seq<T>, k: nat)
    requires k <= |s|
    ensures s == s[..k] + s[k..]
  {
  }

  /** A property of the first `k` elements holds of the prefix's elements. */
  lemma PrefixAll<T>(s: seq<T>, k: nat, p: T -> bool)
    requires k <= |s| && forall i :: 0 <= i < k ==> p(s[i])
    ensures forall i :: 0 <= i < k ==> p(s[..k][i])
  {
    forall i | 0 <= i < k
      ensures p(s[..k][i])
    {
      assert s[..k][i] == s[i];
    }
  }

  /** Trimming both ends leaves a slice of the string. */
  lemma TrimBothSlice(s: string, a: char -> bool, b: char -> bool)
    ensures var t := TrimStart(s, a); var r := TrimEnd(t, b);
      |s| - |t| + |r| <= |s| && r == s[|s| - |t|..|s| - |t| + |r|]
  {
  }

  /** Stripping a string that has no surrounding whitespace changes nothing. */
  lemma StripIdentity(s: string)
    requires s == [] || (!IsSpace(s[0]) && !IsSpace(s[|s| - 1]))
    ensures Strip(s) == s
  {
  }

  /** Whitespace before and after a string with no surrounding whitespace is removed by `Strip`. */
  lemma {:induction false} StripPadded(pre: string, s: string, post: string)
    requires forall i :: 0 <= i < |pre| ==> IsSpace(pre[i])
    requires forall i :: 0 <= i < |post| ==> IsSpace(post[i])
    requires s == [] || (!IsSpace(s[0]) && !IsSpace(s[|s| - 1]))
    ensures Strip(pre + s + post) == s
  {
    if s == [] {
      var u := pre + post;
      forall i | 0 <= i < |u| ensures IsSpace(u[i]) {
        if i < |pre| {
          assert u[i] == pre[i];
        } else {
          assert u[i] == post[i - |pre|];
        }
      }
      assert pre + s + post == u;
    } else {
      TrimStartPrefix(pre, s + post, IsSpace);
      assert pre + s + post == pre + (s + post);
      TrimEndSuffix(s, post, IsSpace);
    }
  }

  /** Removing a droppable prefix in front of a string that starts with a kept character. */
  lemma {:induction false} TrimStartPrefix(pre: string, s: string, drop: char -> bool)
    requires forall i :: 0 <= i < |pre| ==> drop(pre[i])
    requires s != [] && !drop(s[0])
    ensures TrimStart(pre + s, drop) == s
    decreases |pre|
  {
    if pre == [] {
      assert pre + s == s;
      TrimStartKeeps(s, drop);
    } else {
      assert (pre + s)[0] == pre[0];
      assert (pre + s)[1..] == pre[1..] + s;
      TrimStartPrefix(pre[1..], s, drop);
    }
  }

  /** Removing a droppable suffix after a string that ends with a kept character. */
  lemma {:induction false} TrimEndSuffix(s: string, post: string, drop: char -> bool)
    requires forall i :: 0 <= i < |post| ==> drop(post[i])
    requires s != [] && !drop(s[|s| - 1])
    ensures TrimEnd(s + post, drop) == s
    decreases |post|
  {
    if post == [] {
      assert s + post == s;
      TrimEndKeeps(s, drop);
    } else {
      assert (s + post)[|s + post| - 1] == post[|post| - 1];
      assert (s + post)[..|s + post| - 1] == s + post[..|post| - 1];
      TrimEndSuffix(s, post[..|post| - 1], drop);
    }
  }

  /** `s.startswith(p)`. */
  predicate StartsWith(s: string, p: string) {
    |p| <= |s| && s[..|p|] == p
  }

  /** `t` occurs in `s` starting at position `i`. */
  predicate OccursAt(s: string, t: string, i: int) {
    0 <= i && i + |t| <= |s| && s[i..i + |t|] == t
  }

  /** `t in s` for strings: `t` occurs in `s` at some position. */
  predicate Contains(s: string, t: string) {
    exists i :: 0 <= i <= |s| && OccursAt(s, t, i)
  }

  /** A string that occurs in `a` or in `b` occurs in their concatenation. */
  lemma ContainsConcat(a: string, b: string, t: string)
    requires Contains(a, t) || Contains(b, t)
    ensures Contains(a + b, t)
  {
    if Contains(a, t) {
      var i :| 0 <= i <= |a| && OccursAt(a, t, i);
      assert (a + b)[i..i + |t|] == a[i..i + |t|];
      assert OccursAt(a + b, t, i);
    } else {
      var i :| 0 <= i <= |b| && OccursAt(b, t, i);
      assert (a + b)[|a| + i..|a| + i + |t|] == b[i..i + |t|];
      assert OccursAt(a + b, t, |a| + i);
    }
  }

  /** A character occurs in a string. */
  predicate HasChar(s: string, c: char) {
    exists i :: 0 <= i < |s| && s[i] == c
  }

  /** Index of the first occurrence of `c` in `s`, as `str.find` gives it, or `None`. */
  function FindChar(s: string, c: char): (r: Option<nat>)
    ensures r.Some? ==> r.value < |s| && s[r.value] == c && forall j :: 0 <= j < r.value ==> s[j] != c
    ensures r.None? ==> forall j :: 0 <= j < |s| ==> s[j] != c
    decreases |s|
  {
    if s == [] then None
    else if s[0] == c then Some(0)
    else match FindChar(s[1..], c)
      case None => None
      case Some(k) => Some(k + 1)
  }

  /** `s.split(c, 1)` for a string that contains `c`: the text before and after its first occurrence. */
  function SplitFirst(s: string, c: char): (r: (string, string))
    requires HasChar(s, c)
    ensures s == r.0 + [c] + r.1
    ensures forall j :: 0 <= j < |r.0| ==> r.0[j] != c
  {
    var k := FindChar(s, c).value;
    assert s == s[..k] + [c] + s[k + 1..];
    (s[..k], s[k + 1..])
  }

  /** The split of `a + [c] + b` at its first `c` gives back `a` and `b` when `a` has no `c`. */
  lemma SplitFirstOf(a: string, c: char, b: string)
    requires forall j :: 0 <= j < |a| ==> a[j] != c
    ensures HasChar(a + [c] + b, c)
    ensures SplitFirst(a + [c] + b, c) == (a, b)
  {
    var s := a + [c] + b;
    assert s[|a|] == c;
    assert forall j :: 0 <= j < |a| ==> s[j] == a[j];
    assert FindChar(s, c) == Some(|a|);
    assert s[..|a|] == a && s[|a| + 1..] == b;
  }

  /** Concatenation with the empty sequence. */
  lemma AppendEmpty<T>(a: seq<T>)
    ensures a + [] == a && [] + a == a
  {
  }

  /** A prefix one element longer. */
  lemma TakeNext<T>(s: seq<T>, i: nat)
    requires i < |s|
    ensures s[..i + 1] == s[..i] + [s[i]]
  {
  }

  /** The front of a prefix one element longer. */
  lemma PrefixFront<T>(s: seq<T>, k: nat)
    requires k < |s|
    ensures s[..k + 1][..k] == s[..k] && s[..k + 1][k] == s[k]
  {
  }

  /** `list.insert(j, x)` (and Qt's `insertRow(j, …)`) for `0 <= j <= len(list)`: `x` lands at `j`, the elements before and after it keep their order. */
  function InsertAt<T>(s: seq<T>, j: nat, x: T): (r: seq<T>)
    requires j <= |s|
    ensures |r| == |s| + 1 && r[j] == x
    ensures r[..j] == s[..j] && r[j + 1..] == s[j..]
  {
    s[..j] + [x] + s[j..]
  }

  /** A non-empty sequence is its front followed by its last element. */
  lemma DropLast<T>(s: seq<T>)
    requires s != []
    ensures s == s[..|s| - 1] + [s[|s| - 1]]
  {
  }

  /** Text appended after a three-part sequence joins its last part. */
  lemma Regroup<T>(v: seq<T>, pre: seq<T>, m: seq<T>, rest: seq<T>, post: seq<T>)
    requires v == pre + m + rest
    ensures v + post == pre + m + (rest + post)
  {
    AppendAssoc(pre + m, rest, post);
  }

  /** Concatenation is associative; stated for the solver, which does not regroup long concatenations by itself. */
  lemma AppendAssoc<T>(a: seq<T>, b: seq<T>, c: seq<T>)
    ensures a + b + c == a + (b + c)
  {
    assert forall i :: 0 <= i < |a + b + c| ==> (a + b + c)[i] == (a + (b + c))[i];
  }

  /** A string without a line break: neither `\n` nor `\r`, each of which ends a line when text is read back. */
  predicate OneLine(s: string) {
    forall i :: 0 <= i < |s| ==> s[i] != '\n' && s[i] != '\r'
  }

  lemma {:induction false} OneLineConcat(a: string, b: string)
    requires OneLine(a) && OneLine(b)
    ensures OneLine(a + b)
  {
    forall i | 0 <= i < |a + b| ensures (a + b)[i] != '\n' && (a + b)[i] != '\r' {
      if i < |a| {
        assert (a + b)[i] == a[i];
      } else {
        assert (a + b)[i] == b[i - |a|];
      }
    }
  }

  /** `sep.join(parts)`. */
  function Join(parts: seq<string>, sep: string): string
    decreases |parts|
  {
    if parts == [] then []
    else if |parts| == 1 then parts[0]
    else Join(parts[..|parts| - 1], sep) + sep + parts[|parts| - 1]
  }

  /** Joining `parts + [x]` appends the separator and `x`. */
  lemma JoinSnoc(parts: seq<string>, x: string, sep: string)
    requires parts != []
    ensures Join(parts + [x], sep) == Join(parts, sep) + sep + x
  {
    assert (parts + [x])[..|parts|] == parts;
  }

  /** Joining `[x] + parts` prepends `x` and the separator. */
  lemma {:induction false} JoinCons(x: string, parts: seq<string>, sep: string)
    requires parts != []
    ensures Join([x] + parts, sep) == x + sep + Join(parts, sep)
    decreases |parts|
  {
    if |parts| == 1 {
      assert [x] + parts == [x, parts[0]];
      assert [x, parts[0]][..1] == [x];
    } else {
      var init := parts[..|parts| - 1];
      var last := parts[|parts| - 1];
      assert parts == init + [last];
      assert [x] + parts == ([x] + init) + [last];
      JoinSnoc([x] + init, last, sep);
      JoinCons(x, init, sep);
      JoinSnoc(init, last, sep);
    }
  }

  /** `s.split(c)`: the pieces between occurrences of `c`; there is always at least one. */
  function Split(s: string, c: char): (r: seq<string>)
    ensures |r| >= 1
    decreases |s|
  {
    match FindChar(s, c)
    case None => [s]
    case Some(k) => [s[..k]] + Split(s[k + 1..], c)
  }

  /** A piece without the separator followed by the separator splits off first. */
  lemma SplitCons(x: string, c: char, rest: string)
    requires !HasChar(x, c)
    ensures Split(x + [c] + rest, c) == [x] + Split(rest, c)
  {
    var s := x + [c] + rest;
    assert s[|x|] == c;
    assert forall k :: 0 <= k < |x| ==> s[k] == x[k];
    assert forall k :: 0 <= k < |x| ==> x[k] != c;
    assert FindChar(s, c) == Some(|x|);
    assert s[..|x|] == x;
    assert s[|x| + 1..] == rest;
  }

  /** Splitting what was joined gives the pieces back when none of them contains the separator. */
  lemma {:induction false} SplitJoin(parts: seq<string>, c: char)
    requires |parts| >= 1
    requires forall p :: p in parts ==> !HasChar(p, c)
    ensures Split(Join(parts, [c]), c) == parts
    decreases |parts|
  {
    if |parts| == 1 {
      assert !HasChar(parts[0], c);
      assert Join(parts, [c]) == parts[0];
    } else {
      var x := parts[0];
      var rest := parts[1..];
      assert parts == [x] + rest;
      JoinCons(x, rest, [c]);
      assert forall p :: p in rest ==> p in parts;
      SplitJoin(rest, c);
      SplitCons(x, c, Join(rest, [c]));
    }
  }

  /** A character that ends a line when text is read in Python's text mode (universal newlines). */
  predicate LineEnd(c: char) {
    c == '\n' || c == '\r'
  }

  /** Index of the first line end in `s`, or `None`. */
  function FindLineEnd(s: string): (r: Option<nat>)
    ensures r.Some? ==> r.value < |s| && LineEnd(s[r.value]) && forall j :: 0 <= j < r.value ==> !LineEnd(s[j])
    ensures r.None? ==> forall j :: 0 <= j < |s| ==> !LineEnd(s[j])
    decreases |s|
  {
    if s == [] then None
    else if LineEnd(s[0]) then Some(0)
    else match FindLineEnd(s[1..])
      case None => None
      case Some(k) => Some(k + 1)
  }

  /**
   * The lines of `s` as iterating over a file opened in text mode gives
   * them, with their line ends dropped: `\r\n`, a lone `\r` and `\n` each
   * end a line. Like `Split`, text that ends with a line end has an empty
   * last piece, which stands for "no further line".
   */
  function TextLines(s: string): (r: seq<string>)
    ensures |r| >= 1
    decreases |s|
  {
    match FindLineEnd(s)
    case None => [s]
    case Some(k) =>
      var next := if s[k] == '\r' && k + 1 < |s| && s[k + 1] == '\n' then k + 2 else k + 1;
      [s[..k]] + TextLines(s[next..])
  }

  /** A line without line ends followed by `\n` is read back as that line. */
  lemma TextLinesCons(x: string, rest: string)
    requires OneLine(x)
    ensures TextLines(x + "\n" + rest) == [x] + TextLines(rest)
  {
    var s := x + "\n" + rest;
    assert s[|x|] == '\n';
    assert forall k :: 0 <= k < |x| ==> s[k] == x[k];
    assert FindLineEnd(s) == Some(|x|);
    assert s[..|x|] == x;
    assert s[|x| + 1..] == rest;
  }

  /** Text without `\r` reads back as its split at `\n`. */
  lemma {:induction false} TextLinesWithoutCr(s: string)
    requires forall j :: 0 <= j < |s| ==> s[j] != '\r'
    ensures TextLines(s) == Split(s, '\n')
    decreases |s|
  {
    var e := FindLineEnd(s);
    if e.None? {
      assert forall j :: 0 <= j < |s| ==> s[j] != '\n';
      assert FindChar(s, '\n') == None;
    } else {
      var k := e.value;
      assert s[k] == '\n';
      assert forall j :: 0 <= j < k ==> s[j] != '\n';
      assert FindChar(s, '\n') == Some(k);
      var t := s[k + 1..];
      assert forall j :: 0 <= j < |t| ==> t[j] == s[k + 1 + j];
      TextLinesWithoutCr(t);
    }
  }

  /**
   * `s.replace(pat, rep)`: occurrences of `pat` are replaced from left to
   * right without overlapping.
   */
  function ReplaceAll(s: string, pat: string, rep: string): (r: string)
    requires |pat| > 0
    decreases |s|
  {
    if |s| < |pat| then s
    else if s[..|pat|] == pat then rep + ReplaceAll(s[|pat|..], pat, rep)
    else [s[0]] + ReplaceAll(s[1..], pat, rep)
  }

  /** Replacing a pattern that does not occur changes nothing. */
  lemma {:induction false} ReplaceAllAbsent(s: string, pat: string, rep: string)
    requires |pat| > 0 && !Contains(s, pat)
    ensures ReplaceAll(s, pat, rep) == s
    decreases |s|
  {
    if |s| >= |pat| {
      assert !OccursAt(s, pat, 0);
      forall i | 0 <= i <= |s[1..]| && OccursAt(s[1..], pat, i) ensures false {
        assert s[1..][i..i + |pat|] == s[i + 1..i + 1 + |pat|];
        assert OccursAt(s, pat, i + 1);
      }
      ReplaceAllAbsent(s[1..], pat, rep);
      assert s == [s[0]] + s[1..];
    }
  }

  /** `s.lower()` for one character, covering ASCII, Latin-1 and the basic Cyrillic block. */
  function LowerChar(c: char): (r: char)
    ensures ('A' <= c <= 'Z') ==> r as int == c as int + 32
    ensures ('\U{0410}' <= c <= '\U{042F}') ==> r as int == c as int + 32
    ensures c == 'Ё' ==> r == 'ё'
    ensures ('a' <= c <= 'z') || ('0' <= c <= '9') || c == '_' ==> r == c
  {
    if 'A' <= c <= 'Z' then (c as int + 32) as char
    else if '\U{C0}' <= c <= '\U{DE}' && c != '\U{D7}' then (c as int + 32) as char
    else if '\U{0410}' <= c <= '\U{042F}' then (c as int + 32) as char
    else if '\U{0400}' <= c <= '\U{040F}' then (c as int + 80) as char
    else c
  }

  /** `s.lower()`. */
  function Lower(s: string): (r: string)
    ensures |r| == |s|
    ensures forall i :: 0 <= i < |s| ==> r[i] == LowerChar(s[i])
  {
    seq(|s|, i requires 0 <= i < |s| => LowerChar(s[i]))
  }

  /** Python's `<` on strings: code point by code point, a proper prefix first. */
  predicate Less(a: string, b: string)
    decreases |a|
  {
    if a == [] then b != []
    else if b == [] then false
    else if a[0] != b[0] then a[0] < b[0]
    else Less(a[1..], b[1..])
  }

  /** `Less` is a strict order: irreflexive. */
  lemma {:induction false} LessIrreflexive(a: string)
    ensures !Less(a, a)
    decreases |a|
  {
    if a != [] { LessIrreflexive(a[1..]); }
  }

  /** `Less` is a strict order: transitive. */
  lemma {:induction false} LessTransitive(a: string, b: string, c: string)
    requires Less(a, b) && Less(b, c)
    ensures Less(a, c)
    decreases |a|
  {
    if a != [] && b != [] && c != [] && a[0] == b[0] && b[0] == c[0] {
      LessTransitive(a[1..], b[1..], c[1..]);
    }
  }

  /** `Less` is total on distinct strings. */
  lemma {:induction false} LessTotal(a: string, b: string)
    requires a != b
    ensures Less(a, b) || Less(b, a)
    decreases |a|
  {
    if a != [] && b != [] && a[0] == b[0] {
      assert a == [a[0]] + a[1..] && b == [b[0]] + b[1..];
      LessTotal(a[1..], b[1..]);
    }
  }

  /** `Less` is asymmetric. */
  lemma LessAsymmetric(a: string, b: string)
    requires Less(a, b)
    ensures !Less(b, a)
  {
    if Less(b, a) {
      LessTransitive(a, b, a);
      LessIrreflexive(a);
    }
  }

  /** One decimal digit. */
  function DigitChar(d: nat): (r: char)
    requires d < 10
    ensures '0' <= r <= '9'
  {
    "0123456789"[d]
  }

  /** `str(n)` for a natural number. */
  function NatToString(n: nat): (r: string)
    ensures |r| >= 1
    ensures forall i :: 0 <= i < |r| ==> '0' <= r[i] <= '9'
    ensures r[|r| - 1] == DigitChar(n % 10)
    decreases n
  {
    if n < 10 then [DigitChar(n)] else NatToString(n / 10) + [DigitChar(n % 10)]
  }

  /** `str(n)` for an integer, with a leading `-` for negative values. */
  function IntToString(n: int): (r: string)
    ensures |r| >= 1
    ensures (r[0] == '-') <==> n < 0
    ensures forall i :: 0 < i < |r| ==> '0' <= r[i] <= '9'
    ensures '0' <= r[|r| - 1] <= '9'
  {
    if n < 0 then "-" + NatToString(-n) else NatToString(n)
  }

  /** `n` in decimal, padded on the left with zeros to at least `w` digits, as `%02d` and the like give it. */
  function PadNat(n: nat, w: nat): (r: string)
    ensures |r| >= w
    ensures forall i :: 0 <= i < |r| ==> '0' <= r[i] <= '9'
    decreases w
  {
    var s := NatToString(n);
    if |s| >= w then s else "0" + PadNat(n, w - 1)
  }

  /** One lower-case hexadecimal digit. */
  function HexDigit(d: nat): (r: char)
    requires d < 16
    ensures ('0' <= r <= '9') || ('a' <= r <= 'f')
  {
    "0123456789abcdef"[d]
  }

  /** The lower-case hexadecimal digits of `n`, without prefix. */
  function HexDigits(n: nat): (r: string)
    ensures |r| >= 1
    ensures forall i :: 0 <= i < |r| ==> ('0' <= r[i] <= '9') || ('a' <= r[i] <= 'f')
    decreases n
  {
    if n < 16 then [HexDigit(n)] else HexDigits(n / 16) + [HexDigit(n % 16)]
  }

  /** Python's `hex(n)` for a non-negative `n`: `0x` and lower-case digits. */
  function Hex(n: nat): (r: string)
    ensures StartsWith(r, "0x") && |r| >= 3
  {
    "0x" + HexDigits(n)
  }

  /** The elements in first-occurrence order, each once. */
  function Dedup(s: seq<string>): (r: seq<string>)
    decreases |s|
  {
    if s == [] then []
    else
      var init := Dedup(s[..|s| - 1]);
      if s[|s| - 1] in init then init else init + [s[|s| - 1]]
  }

  /** One element more is kept only when it is new. */
  lemma DedupSnoc(s: seq<string>, x: string)
    ensures Dedup(s + [x]) == if x in Dedup(s) then Dedup(s) else Dedup(s) + [x]
  {
    assert (s + [x])[..|s|] == s;
  }

  /** Descending order as `sort(reverse=True)` leaves it. */
  predicate SortedDesc(s: seq<string>) {
    forall i, j :: 0 <= i < j < |s| ==> !Less(s[i], s[j])
  }

  /** Inserting into a descending list after every element not smaller. */
  function InsertDesc(x: string, s: seq<string>): (r: seq<string>)
    decreases |s|
  {
    if s == [] || !Less(x, s[0]) then [x] + s else [s[0]] + InsertDesc(x, s[1..])
  }

  /** `sorted(s, reverse=True)`. */
  function SortDesc(s: seq<string>): seq<string>
    decreases |s|
  {
    if s == [] then [] else InsertDesc(s[0], SortDesc(s[1..]))
  }

  lemma {:induction false} InsertDescProps(x: string, s: seq<string>)
    requires SortedDesc(s)
    ensures SortedDesc(InsertDesc(x, s))
    ensures multiset(InsertDesc(x, s)) == multiset(s) + multiset{x}
    decreases |s|
  {
    InsertDescMultiset(x, s);
    if s == [] || !Less(x, s[0]) {
      forall k | 0 <= k < |s| ensures !Less(x, s[k]) {
        if k > 0 && Less(x, s[k]) {
          LessBelow(x, s[k], s[0]);
        }
      }
      ConsSorted(x, s);
    } else {
      InsertDescProps(x, s[1..]);
      var t := InsertDesc(x, s[1..]);
      forall k | 0 <= k < |t| ensures !Less(s[0], t[k]) {
        assert t[k] in multiset(s[1..]) + multiset{x};
        if t[k] == x {
          LessAsymmetric(x, s[0]);
        } else {
          assert t[k] in s[1..];
          var m :| 0 <= m < |s[1..]| && s[1..][m] == t[k];
          assert s[m + 1] == t[k];
        }
      }
      ConsSorted(s[0], t);
    }
  }

  /** Inserting adds the one element and keeps the rest. */
  lemma {:induction false} InsertDescMultiset(x: string, s: seq<string>)
    ensures multiset(InsertDesc(x, s)) == multiset(s) + multiset{x}
    decreases |s|
  {
    if s != [] && Less(x, s[0]) {
      InsertDescMultiset(x, s[1..]);
      assert s == [s[0]] + s[1..];
    }
  }

  /** An element not below any of a descending list can go in front of it. */
  lemma ConsSorted(h: string, s: seq<string>)
    requires SortedDesc(s) && forall k :: 0 <= k < |s| ==> !Less(h, s[k])
    ensures SortedDesc([h] + s)
  {
    var r := [h] + s;
    forall i, j | 0 <= i < j < |r| ensures !Less(r[i], r[j]) {
      assert r[j] == s[j - 1];
      if i > 0 {
        assert r[i] == s[i - 1];
      }
    }
  }

  /** Below something that is not below `y` is below `y`. */
  lemma LessBelow(x: string, z: string, y: string)
    requires Less(x, z) && !Less(y, z)
    ensures Less(x, y)
  {
    if y == z {
    } else {
      LessTotal(y, z);
      LessTransitive(x, z, y);
    }
  }

  /** The sort keeps every element and leaves the list in descending order. */
  lemma {:induction false} SortDescProps(s: seq<string>)
    ensures SortedDesc(SortDesc(s)) && multiset(SortDesc(s)) == multiset(s)
    decreases |s|
  {
    if s != [] {
      SortDescProps(s[1..]);
      InsertDescProps(s[0], SortDesc(s[1..]));
      assert s == [s[0]] + s[1..];
    }
  }

  /** The elements of `Dedup(s)` are those of `s`, and none twice. */
  lemma {:induction false} DedupProps(s: seq<string>)
    ensures forall x :: x in Dedup(s) <==> x in s
    ensures forall i, j :: 0 <= i < j < |Dedup(s)| ==> Dedup(s)[i] != Dedup(s)[j]
    decreases |s|
  {
    if s != [] {
      DedupProps(s[..|s| - 1]);
      assert s == s[..|s| - 1] + [s[|s| - 1]];
    }
  }

  /** Ascending order as `sorted` leaves it. */
  predicate SortedAsc(s: seq<string>) {
    forall i, j :: 0 <= i < j < |s| ==> !Less(s[j], s[i])
  }

  /** The elements in the opposite order. */
  function Reverse(s: seq<string>): (r: seq<string>)
    ensures |r| == |s| && forall i :: 0 <= i < |s| ==> r[i] == s[|s| - 1 - i]
  {
    seq(|s|, i requires 0 <= i < |s| => s[|s| - 1 - i])
  }

  /** `sorted(s)`: strings are totally ordered, so the ascending order is the descending one read backwards. */
  function SortAsc(s: seq<string>): seq<string> {
    Reverse(SortDesc(s))
  }

  /** Reversing keeps every element. */
  lemma {:induction false} ReverseMultiset(s: seq<string>)
    ensures multiset(Reverse(s)) == multiset(s)
    decreases |s|
  {
    if s != [] {
      ReverseMultiset(s[1..]);
      assert Reverse(s) == Reverse(s[1..]) + [s[0]];
      assert s == [s[0]] + s[1..];
    }
  }

  /** The ascending sort keeps every element and leaves the list in ascending order. */
  lemma SortAscProps(s: seq<string>)
    ensures SortedAsc(SortAsc(s)) && multiset(SortAsc(s)) == multiset(s)
  {
    SortDescProps(s);
    var d := SortDesc(s);
    ReverseMultiset(d);
    var r := Reverse(d);
    forall i, j | 0 <= i < j < |r|
      ensures !Less(r[j], r[i])
    {
      assert r[j] == d[|d| - 1 - j] && r[i] == d[|d| - 1 - i];
    }
  }

  /** In a list without repeats every element occurs once. */
  lemma {:induction false} DistinctCount(s: seq<string>, x: string)
    requires forall i, j :: 0 <= i < j < |s| ==> s[i] != s[j]
    ensures multiset(s)[x] <= 1
    decreases |s|
  {
    if s != [] {
      DistinctCount(s[1..], x);
      assert s == [s[0]] + s[1..];
      if s[0] == x {
        assert x !in s[1..] by {
          forall k | 0 <= k < |s[1..]| ensures s[1..][k] != x {
            assert s[1..][k] == s[k + 1];
          }
        }
      }
    }
  }

  /** Sorting the distinct elements ascending, as `sorted(set(s))` does: each element of `s` exactly once, in ascending order. */
  lemma SortedDistinctAsc(s: seq<string>)
    ensures var r := SortAsc(Dedup(s));
      SortedAsc(r) && (forall i, j :: 0 <= i < j < |r| ==> r[i] != r[j]) && (forall x :: x in r <==> x in s)
  {
    var d := Dedup(s);
    DedupProps(s);
    SortAscProps(d);
    PermutedDistinct(d, SortAsc(d));
  }

  /** Sorting the distinct elements descending: each element of `s` exactly once, largest first. */
  lemma SortedDistinctDesc(s: seq<string>)
    ensures var r := SortDesc(Dedup(s));
      SortedDesc(r) && (forall i, j :: 0 <= i < j < |r| ==> r[i] != r[j]) && (forall x :: x in r <==> x in s)
  {
    var d := Dedup(s);
    DedupProps(s);
    SortDescProps(d);
    PermutedDistinct(d, SortDesc(d));
  }

  /** A reordering of a list without repeats has no repeats and the same elements. */
  lemma PermutedDistinct(d: seq<string>, r: seq<string>)
    requires multiset(r) == multiset(d)
    requires forall i, j :: 0 <= i < j < |d| ==> d[i] != d[j]
    ensures forall i, j :: 0 <= i < j < |r| ==> r[i] != r[j]
    ensures forall x :: x in r <==> x in d
  {
    forall x
      ensures x in r <==> x in d
    {
      assert x in r <==> x in multiset(r);
    }
    forall i, j | 0 <= i < j < |r|
      ensures r[i] != r[j]
    {
      if r[i] == r[j] {
        assert multiset(r)[r[i]] >= 2 by {
          assert r == r[..j] + r[j..];
          assert r[i] in r[..j] && r[j] in r[j..];
          assert multiset(r[..j])[r[i]] >= 1 && multiset(r[j..])[r[i]] >= 1;
        }
        DistinctCount(d, r[i]);
      }
    }
  }
}
