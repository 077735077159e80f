/** Parsing console options of the form key=value,key=value in two passes over a mutable copy of
    the string: one counts the tokens, the next fills an array of that many pairs. */
module ConsoleOptions {
  import opened Wrappers

  /** Where `c` first occurs in `s`, or the length of `s`. */
  function FirstIndex(s: string, c: char): (n: nat)
    ensures n <= |s|
    ensures n < |s| ==> s[n] == c
    ensures c !in s[..n]
  {
    if s == [] || s[0] == c then 0
    else
      var n := 1 + FirstIndex(s[1..], c);
      assert s[..n] == [s[0]] + s[1..][..n - 1];
      n
  }

  /** The maximal runs without a comma. */
  function Tokens(s: string): seq<string>
    decreases |s|
  {
    if s == [] then []
    else if s[0] == ',' then Tokens(s[1..])
    else
      var n := FirstIndex(s, ',');
      [s[..n]] + Tokens(s[n..])
  }

  datatype Pair = Pair(key: string, val: string)

  /** A token split at its first '='. */
  function Split(token: string): Option<Pair> {
    var n := FirstIndex(token, '=');
    if n < |token| then Some(Pair(token[..n], token[n + 1..])) else None
  }

  function SplitAll(tokens: seq<string>): Option<seq<Pair>> {
    if tokens == [] then Some([])
    else
      var first, rest := Split(tokens[0]), SplitAll(tokens[1..]);
      if first.Some? && rest.Some? then Some([first.value] + rest.value) else None
  }

  /** What a string of options means; a string without any token is rejected. */
  function Parsed(s: string): Option<seq<Pair>> {
    if Tokens(s) == [] then None else SplitAll(Tokens(s))
  }

  // --- the C string functions ----------------------------------------------------------------

  /** A C string held in a buffer: it ends at the terminator in the last cell, and the part from
      `from` on has no other. */
  predicate Terminated(buf: seq<char>, from: nat) {
    && |buf| > 0 && buf[|buf| - 1] == '\0'
    && from < |buf|
    && '\0' !in buf[from..|buf| - 1]
  }

  /** The characters from `from` up to the end of the buffer, without the terminator. */
  function Rest(buf: seq<char>, from: nat): string
    requires from < |buf|
  {
    buf[from..|buf| - 1]
  }

  /** The C string that starts at `from`. */
  function CString(buf: seq<char>, from: nat): string
    requires from <= |buf|
  {
    buf[from..][..FirstIndex(buf[from..], '\0')]
  }

  method Strdup(s: string) returns (buf: array<char>)
    requires '\0' !in s
    ensures fresh(buf) && buf.Length == |s| + 1
    ensures Terminated(buf[..], 0) && Rest(buf[..], 0) == s
  {
    buf := new char[|s| + 1](i requires 0 <= i <= |s| => if i < |s| then s[i] else '\0');
    assert buf[..|s|] == s;
  }

  lemma NoTerminatorInside(buf: seq<char>, from: nat)
    requires Terminated(buf, from)
    ensures forall k :: from <= k < |buf| - 1 ==> buf[k] != '\0'
  {
    forall k | from <= k < |buf| - 1 ensures buf[k] != '\0' {
      assert Rest(buf, from)[k - from] == buf[k];
    }
  }

  lemma CommaSkipped(buf: seq<char>, p: nat)
    requires Terminated(buf, p) && buf[p] == ','
    ensures Terminated(buf, p + 1)
    ensures Tokens(Rest(buf, p)) == Tokens(Rest(buf, p + 1))
  {
    assert p < |buf| - 1;
    assert Rest(buf, p)[1..] == Rest(buf, p + 1);
    assert forall k :: p + 1 <= k < |buf| - 1 ==> buf[k] in buf[p..|buf| - 1];
  }

  /** Ending the token that starts at `p` by a terminator in place of the comma at `q`. */
  lemma TokenCut(buf: seq<char>, cut: seq<char>, p: nat, q: nat, next: nat)
    requires Terminated(buf, p) && p < q < |buf|
    requires ',' !in buf[p..q] && (q == |buf| - 1 || buf[q] == ',')
    requires cut == buf[q := '\0']
    requires next == if q == |buf| - 1 then q else q + 1
    ensures Terminated(cut, next) && CString(cut, p) == buf[p..q]
    ensures Tokens(Rest(buf, p)) == [buf[p..q]] + Tokens(Rest(cut, next))
  {
    var s := Rest(buf, p);
    var n := FirstIndex(s, ',');
    assert s[..q - p] == buf[p..q];
    assert n == q - p;
    assert s[n..] == Rest(buf, q);
    if q < |buf| - 1 {
      assert Rest(buf, q)[1..] == Rest(cut, next);
    } else {
      assert Rest(buf, q) == [] == Rest(cut, next);
    }
    assert s != [] && s[0] == buf[p] && buf[p] in buf[p..q];
    var t := cut[p..];
    assert t[q - p] == '\0';
    forall k | 0 <= k < q - p ensures t[k] != '\0' {
      assert t[k] == buf[p..|buf| - 1][k];
    }
    assert FirstIndex(t, '\0') == q - p;
    assert t[..q - p] == buf[p..q];
    forall k | next <= k < |cut| - 1 ensures cut[k] != '\0' {
      assert cut[k] == buf[p..|buf| - 1][k - p];
    }
  }

  /** strtok_r with the delimiter ",", as section 7.24.5.8 of ISO C11 describes strtok: `start` is
      the first call's string or the saved position. */
  method StrtokR(buf: array<char>, start: nat) returns (tok: Option<nat>, next: nat)
    requires Terminated(buf[..], start)
    modifies buf
    ensures start <= next < buf.Length && Terminated(buf[..], next)
    ensures tok.None? ==> Tokens(old(Rest(buf[..], start))) == [] && buf[..] == old(buf[..]) && next == buf.Length - 1
    ensures tok.Some? ==>
              && start <= tok.value < next
              && Tokens(old(Rest(buf[..], start))) ==
                   [CString(buf[..], tok.value)] + Tokens(Rest(buf[..], next))
    ensures tok.Some? ==> tok.value + |CString(buf[..], tok.value)| <= next
  {
    var p := start;
    while buf[p] == ','
      invariant start <= p < buf.Length && Terminated(buf[..], p)
      invariant Tokens(Rest(buf[..], p)) == Tokens(Rest(buf[..], start))
      invariant buf[..] == old(buf[..])
      decreases buf.Length - p
    {
      CommaSkipped(buf[..], p);
      p := p + 1;
    }
    if buf[p] == '\0' {
      NoTerminatorInside(buf[..], p);
      return None, p;
    }
    var q := p;
    while buf[q] != ',' && buf[q] != '\0'
      invariant p <= q < buf.Length && ',' !in buf[p..q]
      invariant q == p ==> buf[q] != ',' && buf[q] != '\0'
      decreases buf.Length - q
    {
      assert buf[p..q + 1] == buf[p..q] + [buf[q]];
      q := q + 1;
    }
    ghost var before := buf[..];
    NoTerminatorInside(before, p);
    next := q;
    if buf[q] == ',' {
      buf[q] := '\0';
      next := q + 1;
    }
    assert buf[..] == before[q := '\0'];
    TokenCut(before, buf[..], p, q, next);
    return Some(p), next;
  }

  /** The first pass. */
  method CountItems(config: string) returns (numItems: nat)
    requires '\0' !in config
    ensures numItems == |Tokens(config)|
  {
    var buf := Strdup(config);
    numItems := 0;
    var tok: Option<nat>, nextTok: nat := StrtokR(buf, 0);
    while tok.Some?
      invariant nextTok < buf.Length && Terminated(buf[..], nextTok) && fresh(buf)
      invariant |Tokens(config)| == numItems + if tok.Some? then 1 + |Tokens(Rest(buf[..], nextTok))| else 0
      decreases buf.Length - nextTok, tok.Some?
    {
      numItems := numItems + 1;
      tok, nextTok := StrtokR(buf, nextTok);
    }
  }

  lemma CStringAt(buf: seq<char>, from: nat)
    requires from <= |buf|
    ensures from + |CString(buf, from)| <= |buf|
    ensures forall k :: 0 <= k < |CString(buf, from)| ==> buf[from + k] == CString(buf, from)[k] != '\0'
  {
    var s := CString(buf, from);
    forall k | 0 <= k < |s| ensures s[k] != '\0' {
      assert s[k] in s;
    }
  }

  lemma CStringIs(buf: seq<char>, from: nat, s: string)
    requires from + |s| < |buf| && buf[from + |s|] == '\0'
    requires forall k :: 0 <= k < |s| ==> buf[from + k] == s[k] != '\0'
    ensures CString(buf, from) == s
  {
    var t := buf[from..];
    assert t[..|s|] == s;
    FirstIndexIs(t, '\0', |s|);
  }

  /** strchr(tok, '='). */
  method Strchr(buf: array<char>, tok: nat) returns (val: Option<nat>)
    requires tok < buf.Length && tok + |CString(buf[..], tok)| < buf.Length
    ensures val == var token := CString(buf[..], tok); var n := FirstIndex(token, '=');
                   if n < |token| then Some(tok + n) else None
  {
    ghost var token := CString(buf[..], tok);
    CStringAt(buf[..], tok);
    assert buf[..][tok..][|token|] == '\0' by {
      assert FirstIndex(buf[..][tok..], '\0') == |token|;
    }
    var p := tok;
    while buf[p] != '=' && buf[p] != '\0'
      invariant tok <= p <= tok + |token|
      invariant '=' !in token[..p - tok]
      decreases buf.Length - p
    {
      assert token[..p - tok + 1] == token[..p - tok] + [buf[p]];
      p := p + 1;
    }
    FirstIndexIs(token, '=', p - tok);
    if buf[p] == '=' {
      return Some(p);
    }
    return None;
  }

  lemma FirstIndexIs(s: string, c: char, n: nat)
    requires n <= |s| && c !in s[..n] && (n < |s| ==> s[n] == c)
    ensures FirstIndex(s, c) == n
  {
    var m := FirstIndex(s, c);
    assert forall k :: 0 <= k < n ==> s[..n][k] != c;
    assert forall k :: 0 <= k < m ==> s[..m][k] != c;
    assert forall k :: 0 <= k < n ==> s[k] == s[..n][k];
    assert forall k :: 0 <= k < m ==> s[k] == s[..m][k];
  }

  /** Overwriting the '=' by a terminator leaves the key before it, the value after it, and the
      tokens further on as they were. */
  lemma KeyValueCut(buf: seq<char>, cut: seq<char>, tok: nat, v: nat, next: nat)
    requires Terminated(buf, next) && tok <= next && tok + |CString(buf, tok)| <= next
    requires v == tok + FirstIndex(CString(buf, tok), '=') < tok + |CString(buf, tok)|
    requires cut == buf[v := '\0']
    ensures Split(CString(buf, tok)) == Some(Pair(CString(cut, tok), CString(cut, v + 1)))
    ensures Terminated(cut, next) && Rest(cut, next) == Rest(buf, next)
  {
    KeyCut(buf, cut, tok, v);
    ValueCut(buf, cut, tok, v);
    RestUntouched(buf, cut, v, next);
  }

  lemma EndsWithin(buf: seq<char>, tok: nat)
    requires tok <= |buf| && tok + |CString(buf, tok)| < |buf|
    ensures buf[tok + |CString(buf, tok)|] == '\0'
  {
    var n := FirstIndex(buf[tok..], '\0');
    assert n == |CString(buf, tok)|;
    assert buf[tok..][n] == '\0';
  }

  lemma KeyCut(buf: seq<char>, cut: seq<char>, tok: nat, v: nat)
    requires tok <= |buf| && tok + |CString(buf, tok)| < |buf|
    requires v < |buf| && tok <= v < tok + |CString(buf, tok)| && cut == buf[v := '\0']
    ensures CString(cut, tok) == CString(buf, tok)[..v - tok]
  {
    CStringAt(buf, tok);
    CStringIs(cut, tok, CString(buf, tok)[..v - tok]);
  }

  lemma ValueCut(buf: seq<char>, cut: seq<char>, tok: nat, v: nat)
    requires tok <= |buf| && tok + |CString(buf, tok)| < |buf|
    requires v < |buf| && tok <= v < tok + |CString(buf, tok)| && cut == buf[v := '\0']
    ensures CString(cut, v + 1) == CString(buf, tok)[v - tok + 1..]
  {
    var token := CString(buf, tok);
    var val := token[v - tok + 1..];
    CStringAt(buf, tok);
    EndsWithin(buf, tok);
    forall k | 0 <= k < |val| ensures cut[v + 1 + k] == val[k] != '\0' {
      var j := v - tok + 1 + k;
      assert val[k] == token[j] && buf[tok + j] == token[j];
    }
    CStringIs(cut, v + 1, val);
  }

  lemma RestUntouched(buf: seq<char>, cut: seq<char>, v: nat, next: nat)
    requires Terminated(buf, next) && v < next && cut == buf[v := '\0']
    ensures Terminated(cut, next) && Rest(cut, next) == Rest(buf, next)
  {
    assert cut[next..|cut| - 1] == buf[next..|buf| - 1];
  }

  lemma SplitAllOfOne(token: string)
    ensures SplitAll([token]) == if Split(token).Some? then Some([Split(token).value]) else None
  {
    assert [token][1..] == [];
    assert SplitAll([]) == Some([]);
    if Split(token).Some? {
      assert [Split(token).value] + [] == [Split(token).value];
    }
  }

  lemma {:induction false} SplitAllStep(tokens: seq<string>, token: string)
    ensures SplitAll(tokens + [token]) ==
              if SplitAll(tokens).Some? && Split(token).Some? then Some(SplitAll(tokens).value + [Split(token).value])
              else None
  {
    if tokens == [] {
      assert tokens + [token] == [token];
      SplitAllOfOne(token);
      if Split(token).Some? {
        assert [] + [Split(token).value] == [Split(token).value];
      }
    } else {
      assert (tokens + [token])[1..] == tokens[1..] + [token];
      SplitAllStep(tokens[1..], token);
      if SplitAll(tokens).Some? && Split(token).Some? {
        var first, rest := [Split(tokens[0]).value], SplitAll(tokens[1..]).value;
        assert (first + rest) + [Split(token).value] == first + (rest + [Split(token).value]);
      }
    }
  }

  /** The options are all valid exactly when every token has an '=', and then there are as many
      pairs as tokens. */
  lemma {:induction false} SplitAllIff(tokens: seq<string>)
    ensures SplitAll(tokens).Some? <==> forall k :: 0 <= k < |tokens| ==> '=' in tokens[k]
    ensures SplitAll(tokens).Some? ==> |SplitAll(tokens).value| == |tokens|
    ensures forall k :: SplitAll(tokens).Some? && 0 <= k < |tokens| ==>
              Split(tokens[k]) == Some(SplitAll(tokens).value[k])
  {
    if tokens != [] {
      SplitAllIff(tokens[1..]);
      var n := FirstIndex(tokens[0], '=');
      assert n == |tokens[0]| ==> tokens[0][..n] == tokens[0];
      assert forall k :: 1 <= k < |tokens| ==> tokens[k] == tokens[1..][k - 1];
    }
  }

  lemma {:induction false} NoTokensOnlyCommas(s: string)
    requires Tokens(s) == []
    ensures forall k :: 0 <= k < |s| ==> s[k] == ','
  {
    if s != [] {
      NoTokensOnlyCommas(s[1..]);
    }
  }

  /** One round of the second pass: the token at `tok` becomes a pair, in place. */
  method TakePair(buf: array<char>, tok: nat, next: nat) returns (pair: Option<Pair>)
    requires Terminated(buf[..], next) && tok <= buf.Length && tok + |CString(buf[..], tok)| <= next
    modifies buf
    ensures pair == Split(old(CString(buf[..], tok)))
    ensures Terminated(buf[..], next) && Rest(buf[..], next) == old(Rest(buf[..], next))
  {
    var val := Strchr(buf, tok);
    if val.None? {
      return None;
    }
    ghost var before := buf[..];
    ghost var v := val.value;
    ghost var cut := before[v := '\0'];
    KeyValueCut(before, cut, tok, v, next);
    buf[val.value] := '\0';
    assert buf[..] == cut;
    pair := Some(Pair(CString(buf[..], tok), CString(buf[..], val.value + 1)));
  }

  /** What is still to be taken: nothing without a token in hand, else the token in hand and the
      ones after it; or, if there were never any tokens, the whole string of commas. */
  ghost predicate Pending(all: seq<string>, i: nat, buf: seq<char>, tok: Option<nat>, next: nat) {
    && next < |buf| && Terminated(buf, next)
    && i <= |all|
    && match tok
       case None => i == |all| && all != []
       case Some(p) =>
         && p <= |buf| && p + |CString(buf, p)| <= next
         && if all == [] then '=' !in CString(buf, p)
            else i < |all| && all[i] == CString(buf, p) && all[i + 1..] == Tokens(Rest(buf, next))
  }

  lemma FallbackPending(config: string, buf: seq<char>)
    requires '\0' !in config && Tokens(config) == []
    requires buf == config + ['\0']
    ensures Pending(Tokens(config), 0, buf, Some(0), |config|)
  {
    NoTokensOnlyCommas(config);
    CStringIs(buf, 0, config);
  }

  lemma PendingNext(all: seq<string>, i: nat, rest: string, buf: seq<char>, tok: Option<nat>, next: nat)
    requires 0 < i <= |all| && all[i..] == Tokens(rest)
    requires next < |buf| && Terminated(buf, next)
    requires tok.None? ==> Tokens(rest) == []
    requires tok.Some? ==>
               && tok.value < next && tok.value + |CString(buf, tok.value)| <= next
               && Tokens(rest) == [CString(buf, tok.value)] + Tokens(Rest(buf, next))
    ensures Pending(all, i, buf, tok, next)
  {
    if tok.Some? {
      assert all[i] == all[i..][0];
      assert all[i + 1..] == all[i..][1..];
    }
  }

  /** The second pass, after the first has fixed the size of the array; a string without tokens
      falls back to being its own only token. The array is full on success. */
  method ParseOptions(config: string) returns (accepted: bool, contents: array<Pair>)
    requires '\0' !in config
    ensures contents.Length == |Tokens(config)| && fresh(contents)
    ensures accepted <==> Parsed(config).Some?
    ensures accepted ==> contents[..] == Parsed(config).value
  {
    var numItems := CountItems(config);
    contents := new Pair[numItems](_ => Pair("", ""));
    var buf := Strdup(config);
    assert buf[..] == config + ['\0'];
    var tok: Option<nat>, nextTok: nat := StrtokR(buf, 0);
    ghost var all := Tokens(config);
    if tok.None? {
      tok := Some(0);
      FallbackPending(config, buf[..]);
    }
    accepted := FillItems(all, contents, buf, tok, nextTok);
  }

  /** The loop of the second pass. */
  method FillItems(ghost all: seq<string>, contents: array<Pair>, buf: array<char>, first: Option<nat>, firstNext: nat)
    returns (accepted: bool)
    requires contents.Length == |all|
    requires Pending(all, 0, buf[..], first, firstNext)
    modifies contents, buf
    ensures accepted <==> all != [] && SplitAll(all).Some?
    ensures accepted ==> contents[..] == SplitAll(all).value
  {
    hide Tokens, Rest, CString, Terminated;
    var tok, nextTok := first, firstNext;
    var i := 0;
    while tok.Some?
      invariant nextTok < buf.Length && Pending(all, i, buf[..], tok, nextTok)
      invariant SplitAll(all[..i]) == Some(contents[..i])
      decreases buf.Length - nextTok, tok.Some?
    {
      var pair := TakePair(buf, tok.value, nextTok);
      if pair.None? {
        SplitAllIff(all);
        return false;
      }
      contents[i] := pair.value;
      assert all[..i + 1] == all[..i] + [all[i]];
      SplitAllStep(all[..i], all[i]);
      assert contents[..i + 1] == contents[..i] + [pair.value];
      i := i + 1;
      ghost var rest := Rest(buf[..], nextTok);
      tok, nextTok := StrtokR(buf, nextTok);
      PendingNext(all, i, rest, buf[..], tok, nextTok);
    }
    assert all[..i] == all;
    return true;
  }

  // --- parsing inverts joining ---------------------------------------------------------------

  predicate IsOption(p: Pair) {
    ',' !in p.key && '=' !in p.key && ',' !in p.val
  }

  function Written(p: Pair): string {
    p.key + ['='] + p.val
  }

  function Join(pairs: seq<Pair>): string
    requires pairs != []
  {
    if |pairs| == 1 then Written(pairs[0]) else Written(pairs[0]) + [','] + Join(pairs[1..])
  }

  lemma SplitInvertsWritten(p: Pair)
    requires IsOption(p)
    ensures Split(Written(p)) == Some(p) && ',' !in Written(p)
  {
    var w := Written(p);
    assert w[..|p.key|] == p.key;
    FirstIndexIs(w, '=', |p.key|);
    assert w[|p.key| + 1..] == p.val;
  }

  lemma TokensOfOne(token: string)
    requires token != [] && ',' !in token
    ensures Tokens(token) == [token]
  {
    assert token[..|token|] == token;
    FirstIndexIs(token, ',', |token|);
    assert token[0] in token;
  }

  lemma TokensOfMore(token: string, rest: string)
    requires token != [] && ',' !in token
    ensures Tokens(token + [','] + rest) == [token] + Tokens(rest)
  {
    var s := token + [','] + rest;
    assert s[..|token|] == token;
    FirstIndexIs(s, ',', |token|);
    assert s[0] == token[0] && token[0] in token;
    assert s[|token|..][1..] == rest;
  }

  /** Joining options with commas and parsing the result gives the options back. */
  lemma {:induction false} ParsedInvertsJoin(pairs: seq<Pair>)
    requires pairs != [] && forall k :: 0 <= k < |pairs| ==> IsOption(pairs[k])
    ensures Tokens(Join(pairs)) != [] && SplitAll(Tokens(Join(pairs))) == Some(pairs)
    ensures Parsed(Join(pairs)) == Some(pairs)
  {
    SplitInvertsWritten(pairs[0]);
    if |pairs| == 1 {
      TokensOfOne(Written(pairs[0]));
      SplitAllOfOne(Written(pairs[0]));
      assert pairs == [pairs[0]];
    } else {
      ParsedInvertsJoin(pairs[1..]);
      TokensOfMore(Written(pairs[0]), Join(pairs[1..]));
      var tokens := Tokens(Join(pairs));
      assert tokens[1..] == Tokens(Join(pairs[1..]));
      assert pairs == [pairs[0]] + pairs[1..];
    }
  }

  lemma {:induction false} TokensAreBare(s: string)
    ensures forall k :: 0 <= k < |Tokens(s)| ==> Tokens(s)[k] != [] && ',' !in Tokens(s)[k]
    decreases |s|
  {
    if s != [] {
      if s[0] == ',' {
        TokensAreBare(s[1..]);
      } else {
        TokensAreBare(s[FirstIndex(s, ',')..]);
      }
    }
  }

  /** Only lists of options are ever accepted, and every accepted string means the same as the
      joined form of its options: extra commas are all that parsing forgets. */
  lemma AcceptedIsJoined(s: string)
    requires Parsed(s).Some?
    ensures var pairs := Parsed(s).value;
            && pairs != []
            && (forall k :: 0 <= k < |pairs| ==> IsOption(pairs[k]))
            && Tokens(Join(pairs)) == Tokens(s)
            && Parsed(Join(pairs)) == Parsed(s)
  {
    var tokens, pairs := Tokens(s), Parsed(s).value;
    TokensAreBare(s);
    SplitAllIff(tokens);
    forall k | 0 <= k < |pairs| ensures IsOption(pairs[k]) && Written(pairs[k]) == tokens[k] {
      SplitMeans(tokens[k]);
    }
    ParsedInvertsJoin(pairs);
    TokensOfJoin(pairs, tokens);
  }

  lemma SplitMeans(token: string)
    requires Split(token).Some? && ',' !in token
    ensures IsOption(Split(token).value) && Written(Split(token).value) == token
  {
    var n := FirstIndex(token, '=');
    assert forall c :: c in token[..n] || c in token[n + 1..] ==> c in token;
  }

  lemma {:induction false} TokensOfJoin(pairs: seq<Pair>, tokens: seq<string>)
    requires |pairs| == |tokens| > 0
    requires forall k :: 0 <= k < |pairs| ==> Written(pairs[k]) == tokens[k] && tokens[k] != [] && ',' !in tokens[k]
    ensures Tokens(Join(pairs)) == tokens
  {
    if |pairs| == 1 {
      TokensOfOne(tokens[0]);
    } else {
      TokensOfJoin(pairs[1..], tokens[1..]);
      TokensOfMore(tokens[0], Join(pairs[1..]));
    }
  }
}
