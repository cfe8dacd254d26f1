/**
 * `_parse_server_connect_string`: a client-server connection string
 * `Srvr="S";Ref="R"` becomes `S\R`; any other string is returned as it is.
 *
 * The two regular expressions `Srvr="([^"]+)"` and `Ref="([^"]+)"` are
 * searched with `re.IGNORECASE`. A search finds the leftmost position where
 * the key matches, followed by at least one non-quote character and a
 * closing quote; the greedy `[^"]+` captures the whole run of non-quote
 * characters up to that quote.
 */
module ConnectString {
  import opened Wrappers
  import opened Strings

  /** The key part of the two patterns, in lower case and including the opening quote. */
  const SrvrKey: string := "srvr=\""
  const RefKey: string := "ref=\""

  /** Pattern character `p` (lower case) matches `c` under `re.IGNORECASE`; `s` also matches the long s U+017F. */
  predicate CharMatches(c: char, p: char) {
    c == p || LowerChar(c) == p || (p == 's' && c == '\U{017F}')
  }

  /** The key matches at position `i` of `s`, ignoring case. */
  predicate KeyAt(s: string, i: int, key: string) {
    0 <= i && i + |key| <= |s| && forall k :: 0 <= k < |key| ==> CharMatches(s[i + k], key[k])
  }

  /** Length of the run of characters other than `"` that starts at `j`. */
  function QuoteFreeRun(s: string, j: nat): (n: nat)
    requires j <= |s|
    ensures j + n <= |s|
    ensures forall k :: j <= k < j + n ==> s[k] != '"'
    ensures j + n == |s| || s[j + n] == '"'
    decreases |s| - j
  {
    if j == |s| || s[j] == '"' then 0 else 1 + QuoteFreeRun(s, j + 1)
  }

  /** The group captured by `KEY([^"]+)"` when the whole pattern matches at `i`. */
  function MatchAt(s: string, i: nat, key: string): (r: Option<string>)
    ensures r.Some? ==> KeyAt(s, i, key) && |r.value| >= 1
    ensures r.Some? ==> var j := i + |key|; j + |r.value| < |s| && s[j..j + |r.value|] == r.value
    ensures r.Some? ==> (forall k :: 0 <= k < |r.value| ==> r.value[k] != '"') && s[i + |key| + |r.value|] == '"'
  {
    if KeyAt(s, i, key) then
      var j := i + |key|;
      var n := QuoteFreeRun(s, j);
      if n >= 1 && j + n < |s| then Some(s[j..j + n]) else None
    else None
  }

  /** `re.search`: the match at the leftmost position from `from` on. */
  function Search(s: string, key: string, from: nat): (r: Option<string>)
    ensures r.None? ==> forall i :: from <= i <= |s| ==> MatchAt(s, i, key).None?
    decreases |s| - from
  {
    if from > |s| then None
    else match MatchAt(s, from, key)
      case Some(v) => Some(v)
      case None => Search(s, key, from + 1)
  }

  /** `_parse_server_connect_string`. */
  function ParseServerConnectString(cs: string): string
  {
    match (Search(cs, SrvrKey, 0), Search(cs, RefKey, 0))
    case (Some(server), Some(ref)) => server + "\\" + ref
    case _ => cs
  }

  /** The search returns the match at `i` when the key matches nowhere before `i`. */
  lemma {:induction false} SearchFirst(s: string, key: string, from: nat, i: nat)
    requires from <= i && MatchAt(s, i, key).Some?
    requires forall k :: from <= k < i ==> !KeyAt(s, k, key)
    ensures Search(s, key, from) == MatchAt(s, i, key)
    decreases i - from
  {
    if from < i {
      SearchFirst(s, key, from + 1, i);
    }
  }

  /** Both keys end in a quote, so a key can only match where a quote closes it. */
  lemma KeyNeedsQuote(s: string, i: int, key: string)
    requires key == SrvrKey || key == RefKey
    requires KeyAt(s, i, key)
    ensures s[i + |key| - 1] == '"'
  {
    assert CharMatches(s[i + |key| - 1], key[|key| - 1]);
  }

  /** A string without a quote character has no match of either pattern. */
  lemma {:induction false} NoQuoteNoMatch(s: string, key: string, from: nat)
    requires key == SrvrKey || key == RefKey
    requires forall k :: 0 <= k < |s| ==> s[k] != '"'
    ensures Search(s, key, from).None?
    decreases |s| - from
  {
    if from <= |s| {
      if KeyAt(s, from, key) {
        KeyNeedsQuote(s, from, key);
      }
      NoQuoteNoMatch(s, key, from + 1);
    }
  }

  /** A connection string without quotes, such as a file base's `File=...`, is passed through unchanged. */
  lemma ParseWithoutQuotes(cs: string)
    requires forall k :: 0 <= k < |cs| ==> cs[k] != '"'
    ensures ParseServerConnectString(cs) == cs
  {
    NoQuoteNoMatch(cs, SrvrKey, 0);
  }

  /** When either key has no match, the string is returned unchanged. */
  lemma ParseUnmatched(cs: string)
    requires Search(cs, SrvrKey, 0).None? || Search(cs, RefKey, 0).None?
    ensures ParseServerConnectString(cs) == cs
  {
  }

  /** `S` ends in `ref=` in some letter case, which would let the `Ref` key match right after it. */
  predicate EndsLikeRefKey(v: string) {
    |v| >= 4 && KeyAt(v + "\"", |v| - 4, RefKey)
  }

  /** A value that fits inside the quotes of one pattern: not empty and free of quotes. */
  predicate QuotableValue(v: string) {
    |v| >= 1 && forall k :: 0 <= k < |v| ==> v[k] != '"'
  }

  /** The connection string the dialog stores for a client-server base. */
  function ServerConnect(server: string, ref: string): string {
    "Srvr=\"" + server + "\";Ref=\"" + ref + "\""
  }

  /** The capture at `j` of a quote-free value followed by a quote is that value. */
  lemma CaptureAt(s: string, i: nat, key: string, v: string)
    requires QuotableValue(v) && KeyAt(s, i, key)
    requires i + |key| + |v| < |s| && s[i + |key|..i + |key| + |v|] == v && s[i + |key| + |v|] == '"'
    ensures MatchAt(s, i, key) == Some(v)
  {
    var j := i + |key|;
    forall k | j <= k < j + |v| ensures s[k] != '"' {
      assert s[k] == v[k - j];
    }
    QuoteFreeRunIs(s, j, |v|);
  }

  /** The quote-free run has the expected length when a quote follows `n` non-quote characters. */
  lemma {:induction false} QuoteFreeRunIs(s: string, j: nat, n: nat)
    requires j + n < |s| && s[j + n] == '"'
    requires forall k :: j <= k < j + n ==> s[k] != '"'
    ensures QuoteFreeRun(s, j) == n
    decreases n
  {
    if n > 0 {
      QuoteFreeRunIs(s, j + 1, n - 1);
    }
  }

  /** Round trip: `Srvr="S";Ref="R"` becomes `S\R`. */
  lemma ParseServerConnect(server: string, ref: string)
    requires QuotableValue(server) && QuotableValue(ref)
    requires !EndsLikeRefKey(server)
    ensures ParseServerConnectString(ServerConnect(server, ref)) == server + "\\" + ref
  {
    SrvrOfServerConnect(server, ref);
    RefOfServerConnect(server, ref);
  }

  /** The `Srvr` search on `ServerConnect(S, R)` captures `S`. */
  lemma SrvrOfServerConnect(server: string, ref: string)
    requires QuotableValue(server)
    ensures Search(ServerConnect(server, ref), SrvrKey, 0) == Some(server)
  {
    var s := ServerConnect(server, ref);
    var n := |server|;
    assert s[..6] == "Srvr=\"";
    assert s[6..6 + n] == server;
    assert s[6 + n] == '"';
    assert KeyAt(s, 0, SrvrKey) by {
      forall k | 0 <= k < 6 ensures CharMatches(s[k], SrvrKey[k]) {
        assert s[k] == "Srvr=\""[k];
      }
    }
    CaptureAt(s, 0, SrvrKey, server);
    SearchFirst(s, SrvrKey, 0, 0);
  }

  /** The `Ref` search on `ServerConnect(S, R)` captures `R` unless `S` ends like the key. */
  lemma RefOfServerConnect(server: string, ref: string)
    requires QuotableValue(server) && QuotableValue(ref)
    requires !EndsLikeRefKey(server)
    ensures Search(ServerConnect(server, ref), RefKey, 0) == Some(ref)
  {
    var s := ServerConnect(server, ref);
    var n := |server|;
    RefKeyInServerConnect(server, ref);
    NoEarlierRefKey(server, ref);
    SearchFirst(s, RefKey, 0, 8 + n);
  }

  /** In `ServerConnect(S, R)` the `Ref` key starts at `8 + |S|` and captures `R`. */
  lemma RefKeyInServerConnect(server: string, ref: string)
    requires QuotableValue(server) && QuotableValue(ref)
    ensures KeyAt(ServerConnect(server, ref), 8 + |server|, RefKey)
    ensures MatchAt(ServerConnect(server, ref), 8 + |server|, RefKey) == Some(ref)
  {
    var s := ServerConnect(server, ref);
    var n := |server|;
    assert s[6 + n..13 + n] == "\";Ref=\"";
    assert s[13 + n..13 + n + |ref|] == ref;
    assert s[13 + n + |ref|] == '"';
    assert KeyAt(s, 8 + n, RefKey) by {
      forall k | 0 <= k < 5 ensures CharMatches(s[8 + n + k], RefKey[k]) {
        assert s[8 + n + k] == "\";Ref=\""[2 + k];
      }
    }
    CaptureAt(s, 8 + n, RefKey, ref);
  }

  /** No `Ref` key starts before `8 + |S|` in `ServerConnect(S, R)`. */
  lemma NoEarlierRefKey(server: string, ref: string)
    requires QuotableValue(server) && QuotableValue(ref)
    requires !EndsLikeRefKey(server)
    ensures forall k :: 0 <= k < 8 + |server| ==> !KeyAt(ServerConnect(server, ref), k, RefKey)
  {
    var s := ServerConnect(server, ref);
    var n := |server|;
    forall k | 0 <= k < 8 + n ensures !KeyAt(s, k, RefKey) {
      if k == 1 {
        assert s[..6] == "Srvr=\"";
        assert s[2] == 'v' && !CharMatches(s[1 + 1], RefKey[1]);
      } else if k == 2 + n {
        NoRefKeyAfterServer(server, ref);
      } else if 0 <= k + 4 < |s| {
        NotQuoteInServerConnect(server, ref, k + 4);
        assert !CharMatches(s[k + 4], RefKey[4]);
      }
    }
  }

  /** Before the `Ref` value, `ServerConnect(S, R)` has quotes only at 5 and right after `S`. */
  lemma NotQuoteInServerConnect(server: string, ref: string, p: int)
    requires QuotableValue(server)
    requires 0 <= p < 12 + |server| && p != 5 && p != 6 + |server|
    ensures ServerConnect(server, ref)[p] != '"'
  {
    var s := ServerConnect(server, ref);
    var n := |server|;
    if 6 <= p < 6 + n {
      assert s[6..6 + n] == server;
      assert s[p] == server[p - 6];
    } else if p < 6 {
      assert s[..6] == "Srvr=\"";
      assert s[p] == "Srvr=\""[p];
    } else {
      assert s[6 + n..13 + n] == "\";Ref=\"";
      assert s[p] == "\";Ref=\""[p - 6 - n];
    }
  }

  /** Unless the server name ends in `ref=`, the `Ref` key does not match at the quote after it. */
  lemma NoRefKeyAfterServer(server: string, ref: string)
    requires QuotableValue(server) && !EndsLikeRefKey(server)
    ensures !KeyAt(ServerConnect(server, ref), 2 + |server|, RefKey)
  {
    var s := ServerConnect(server, ref);
    var n := |server|;
    var t := server + "\"";
    assert s[6..6 + n] == server;
    assert s[5] == '"' && s[6 + n] == '"';
    if n < 4 {
      assert !CharMatches(s[2 + n + (3 - n)], RefKey[3 - n]);
    } else {
      forall j | 0 <= j < 5 ensures CharMatches(t[n - 4 + j], RefKey[j]) <==> CharMatches(s[2 + n + j], RefKey[j]) {
        assert t[..n] == server;
        assert t[n - 4 + j] == s[2 + n + j];
      }
      assert !KeyAt(t, n - 4, RefKey);
    }
  }
}
