/** `_create_session_with_workaround`: the remote service sometimes reports a
    successful session creation (HTTP 201) through its error channel, with the
    new id embedded in the message.  The id is recovered with the regular
    expression `"session_id":\s*"([^"]+)"`, searched left to right. */
module SessionIdParse {
  import opened Wrappers
  import opened PyText

  /** The literal text the pattern starts with. */
  const Key: string := "\"session_id\":"

  /** `\s` of Python's `re` on str patterns: the characters `str.isspace()`
      accepts. */
  predicate IsSpace(c: char) {
    var n := c as int;
    n == 0x20 || 0x09 <= n <= 0x0D || 0x1C <= n <= 0x1F || n == 0x85 || n == 0xA0
    || n == 0x1680 || 0x2000 <= n <= 0x200A || n == 0x2028 || n == 0x2029
    || n == 0x202F || n == 0x205F || n == 0x3000
  }

  /** Greedy `\s*` starting at `j`: the first position that is not whitespace. */
  function SkipSpace(msg: string, j: nat): (k: nat)
    requires j <= |msg|
    ensures j <= k <= |msg|
    ensures forall t :: j <= t < k ==> IsSpace(msg[t])
    ensures k < |msg| ==> !IsSpace(msg[k])
    decreases |msg| - j
  {
    if j < |msg| && IsSpace(msg[j]) then SkipSpace(msg, j + 1) else j
  }

  /** Greedy `[^"]*` starting at `j`: the first quote at or after `j`. */
  function SkipNonQuote(msg: string, j: nat): (k: nat)
    requires j <= |msg|
    ensures j <= k <= |msg|
    ensures forall t :: j <= t < k ==> msg[t] != '"'
    ensures k < |msg| ==> msg[k] == '"'
    decreases |msg| - j
  {
    if j < |msg| && msg[j] != '"' then SkipNonQuote(msg, j + 1) else j
  }

  /** The pattern anchored at position `i`.  Neither repetition can give back
      characters usefully (what follows each must be a quote), so the greedy
      choice is the only possible match. */
  function MatchAt(msg: string, i: nat): Option<string>
    requires i <= |msg|
  {
    if i + |Key| <= |msg| && msg[i..i + |Key|] == Key then
      var k := SkipSpace(msg, i + |Key|);
      if k < |msg| && msg[k] == '"' then
        var e := SkipNonQuote(msg, k + 1);
        if k + 1 < e < |msg| then Some(msg[k + 1..e]) else None
      else None
    else None
  }

  /** `re.search` from position `i` on: the match at the leftmost position. */
  function SearchFrom(msg: string, i: nat): Option<string>
    requires i <= |msg|
    decreases |msg| - i
  {
    match MatchAt(msg, i)
    case Some(id) => Some(id)
    case None => if i < |msg| then SearchFrom(msg, i + 1) else None
  }

  /** `match.group(1)` of `re.search(pattern, msg)`, if it matches. */
  function FindSessionId(msg: string): (r: Option<string>)
    ensures r.Some? ==>
      exists p :: MatchesAt(msg, p, r.value) && forall q, id' :: 0 <= q < p ==> !MatchesAt(msg, q, id')
    ensures r.None? ==> forall q, id' :: 0 <= q ==> !MatchesAt(msg, q, id')
  {
    SearchFromSpec(msg, 0);
    SearchFrom(msg, 0)
  }

  /** Reference definition: `msg` holds, at position `i`, the key, then
      whitespace, then `id` between quotes, with `id` non-empty and quote-free. */
  ghost predicate MatchesAt(msg: string, i: int, id: string) {
    && 0 <= i && i + |Key| <= |msg| && msg[i..i + |Key|] == Key
    && |id| > 0 && (forall t :: 0 <= t < |id| ==> id[t] != '"')
    && exists k :: OpensAt(msg, i, k, id)
  }

  /** After the key at `i`: whitespace up to `k`, a quote at `k`, then `id`,
      then a quote. */
  ghost predicate OpensAt(msg: string, i: int, k: int, id: string) {
    && 0 <= i + |Key| <= k && k + |id| + 2 <= |msg|
    && (forall t :: i + |Key| <= t < k ==> IsSpace(msg[t]))
    && msg[k] == '"' && msg[k + 1..k + 1 + |id|] == id && msg[k + 1 + |id|] == '"'
  }

  /** The end of a whitespace run is the first non-whitespace position. */
  lemma {:induction false} SkipSpaceAt(msg: string, j: nat, k: nat)
    requires j <= k < |msg| && !IsSpace(msg[k])
    requires forall t :: j <= t < k ==> IsSpace(msg[t])
    ensures SkipSpace(msg, j) == k
    decreases k - j
  {
    if j < k {
      SkipSpaceAt(msg, j + 1, k);
    }
  }

  /** The end of a run without quotes is the first quote. */
  lemma {:induction false} SkipNonQuoteAt(msg: string, j: nat, k: nat)
    requires j <= k < |msg| && msg[k] == '"'
    requires forall t :: j <= t < k ==> msg[t] != '"'
    ensures SkipNonQuote(msg, j) == k
    decreases k - j
  {
    if j < k {
      SkipNonQuoteAt(msg, j + 1, k);
    }
  }

  /** What the scanner finds at `i` matches there. */
  lemma MatchAtSound(msg: string, i: nat, id: string)
    requires i <= |msg| && MatchAt(msg, i) == Some(id)
    ensures MatchesAt(msg, i, id)
  {
    var k := SkipSpace(msg, i + |Key|);
    var e := SkipNonQuote(msg, k + 1);
    assert OpensAt(msg, i, k, id);
  }

  /** A match at `i` is what the scanner finds there. */
  lemma MatchAtComplete(msg: string, i: nat, id: string)
    requires i <= |msg| && MatchesAt(msg, i, id)
    ensures MatchAt(msg, i) == Some(id)
  {
    var k :| OpensAt(msg, i, k, id);
    SkipSpaceAt(msg, i + |Key|, k);
    forall t | k + 1 <= t < k + 1 + |id| ensures msg[t] != '"' {
      assert msg[t] == id[t - k - 1];
    }
    SkipNonQuoteAt(msg, k + 1, k + 1 + |id|);
  }

  /** The scanner and the reference definition agree at every position. */
  lemma MatchAtIff(msg: string, i: nat, id: string)
    requires i <= |msg|
    ensures MatchAt(msg, i) == Some(id) <==> MatchesAt(msg, i, id)
  {
    if MatchAt(msg, i) == Some(id) {
      MatchAtSound(msg, i, id);
    }
    if MatchesAt(msg, i, id) {
      MatchAtComplete(msg, i, id);
    }
  }

  /** `re.search` semantics: a found id is the match at the leftmost position
      where the pattern matches at all, and nothing is found only when the
      pattern matches nowhere. */
  lemma {:induction false} SearchFromSpec(msg: string, i: nat)
    requires i <= |msg|
    ensures SearchFrom(msg, i).Some? ==>
      exists p :: i <= p <= |msg| && MatchesAt(msg, p, SearchFrom(msg, i).value)
        && forall q, id' :: i <= q < p ==> !MatchesAt(msg, q, id')
    ensures SearchFrom(msg, i).None? ==> forall q, id' :: i <= q ==> !MatchesAt(msg, q, id')
    decreases |msg| - i
  {
    forall id' ensures MatchAt(msg, i) == Some(id') <==> MatchesAt(msg, i, id') {
      MatchAtIff(msg, i, id');
    }
    match MatchAt(msg, i)
    case Some(id) =>
      assert MatchesAt(msg, i, id);
    case None =>
      if i < |msg| {
        SearchFromSpec(msg, i + 1);
        if SearchFrom(msg, i + 1).Some? {
          var p :| i + 1 <= p <= |msg| && MatchesAt(msg, p, SearchFrom(msg, i).value)
            && forall q, id' :: i + 1 <= q < p ==> !MatchesAt(msg, q, id');
          assert forall q, id' :: i <= q < p ==> !MatchesAt(msg, q, id');
        }
      } else {
        forall q, id' | i <= q ensures !MatchesAt(msg, q, id') {
          if q == i {
            assert !MatchesAt(msg, i, id');
          }
        }
      }
  }

  /** A match always contains the text `session_id`, so the source's separate
      `"session_id" in error_msg` test never rejects a message the pattern
      accepts. */
  lemma MatchMentionsSessionId(msg: string, i: int, id: string)
    requires MatchesAt(msg, i, id)
    ensures Contains(msg, "session_id")
  {
    assert |Key| == 13 && Key[1..11] == "session_id";
    forall t | 0 <= t < 10 ensures msg[i + 1 + t] == "session_id"[t] {
      assert msg[i + 1 + t] == msg[i..i + |Key|][1 + t] == Key[1..11][t];
    }
    assert msg[i + 1..i + 11] == "session_id";
    assert OccursAt(msg, "session_id", i + 1);
    ContainsIffOccurs(msg, "session_id");
  }

  /** `_create_session_with_workaround` given what `layer.create_session`
      answered: the id on success; on failure, the id recovered from the
      message when it mentions `201` and `session_id` and the pattern
      matches; otherwise the original error is raised again. */
  function CreateSessionWithWorkaround(created: Result<string, string>): (r: Result<string, string>)
    ensures created.Ok? ==> r == created
    ensures r.Err? ==> r == created
  {
    match created
    case Ok(id) => Ok(id)
    case Err(msg) =>
      if Contains(msg, "201") && Contains(msg, "session_id") then
        match FindSessionId(msg)
        case Some(id) => Ok(id)
        case None => Err(msg)
      else Err(msg)
  }

  /** What the workaround promises: success passes through; a failure becomes a
      success exactly when the message mentions `201` and the pattern matches
      somewhere, and then the id is the leftmost match, non-empty and
      quote-free; every other failure is the original message. */
  lemma CreateSessionWithWorkaroundSpec(created: Result<string, string>)
    ensures created.Ok? ==> CreateSessionWithWorkaround(created) == created
    ensures created.Err? ==>
      (CreateSessionWithWorkaround(created).Ok? <==>
        Contains(created.error, "201") && exists i, id :: MatchesAt(created.error, i, id))
    ensures created.Err? && CreateSessionWithWorkaround(created).Err? ==>
      CreateSessionWithWorkaround(created) == created
    ensures created.Err? && CreateSessionWithWorkaround(created).Ok? ==>
      var id := CreateSessionWithWorkaround(created).value;
      |id| > 0 && (forall t :: 0 <= t < |id| ==> id[t] != '"')
      && exists p :: MatchesAt(created.error, p, id) && forall q, id' :: 0 <= q < p ==> !MatchesAt(created.error, q, id')
  {
    if created.Err? {
      var msg := created.error;
      SearchFromSpec(msg, 0);
      if exists i, id :: MatchesAt(msg, i, id) {
        var i, id :| MatchesAt(msg, i, id);
        MatchMentionsSessionId(msg, i, id);
      }
    }
  }

  /** The spelled-out case: a 201 "error" that carries `"session_id": "abc-123"`
      yields the id `abc-123`. */
  const QuirkMessage: string := "201 {" + Key + " \"abc-123\"}"

  lemma QuirkMessageMatches()
    ensures MatchAt(QuirkMessage, 5) == Some("abc-123")
  {
    var msg := QuirkMessage;
    assert msg[5..5 + |Key|] == Key;
    SkipSpaceAt(msg, 18, 19);
    SkipNonQuoteAt(msg, 20, 27);
    assert msg[20..27] == "abc-123";
  }

  lemma QuirkMessageMentions()
    ensures Contains(QuirkMessage, "201") && Contains(QuirkMessage, "session_id")
  {
    var msg := QuirkMessage;
    assert msg[0..3] == "201";
    assert OccursAt(msg, "201", 0);
    ContainsIffOccurs(msg, "201");
    assert msg[5..18] == Key;
    assert |Key| == 13 && Key[1..11] == "session_id";
    assert msg[6..16] == msg[5..18][1..11];
    assert OccursAt(msg, "session_id", 6);
    ContainsIffOccurs(msg, "session_id");
  }

  /** The leftmost match in the example is the one after its key. */
  lemma QuirkMessageFound()
    ensures FindSessionId(QuirkMessage) == Some("abc-123")
  {
    var msg := QuirkMessage;
    QuirkMessageMatches();
    assert Key[0] == '"';
    assert SearchFrom(msg, 4) == Some("abc-123") by {
      assert msg[4..4 + |Key|][0] != Key[0];
    }
    assert SearchFrom(msg, 3) == Some("abc-123") by {
      assert msg[3..3 + |Key|][0] != Key[0];
    }
    assert SearchFrom(msg, 2) == Some("abc-123") by {
      assert msg[2..2 + |Key|][0] != Key[0];
    }
    assert SearchFrom(msg, 1) == Some("abc-123") by {
      assert msg[1..1 + |Key|][0] != Key[0];
    }
    assert msg[0..|Key|][0] != Key[0];
  }

  lemma WorkaroundRecoversEmbeddedId()
    ensures CreateSessionWithWorkaround(Err(QuirkMessage)) == Ok("abc-123")
  {
    QuirkMessageFound();
    QuirkMessageMentions();
  }
}
