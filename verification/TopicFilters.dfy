/** Topics and wildcard filters: validation, the matching loop, and the language a filter denotes. */
module TopicFilters {
  import opened Common

  const MAX_TOPIC_LEN := 256

  // ---------------------------------------------------------------- segments

  /** The segments of `s` between its dots; never empty, as for an empty string. */
  function Split(s: string): (segments: seq<string>)
    ensures |segments| > 0
  {
    if s == "" then [""]
    else
      var rest := Split(s[1..]);
      if s[0] == '.' then [""] + rest else [[s[0]] + rest[0]] + rest[1..]
  }

  function Join(segments: seq<string>): string
    requires |segments| > 0
  {
    if |segments| == 1 then segments[0] else segments[0] + "." + Join(segments[1..])
  }

  lemma {:induction false} JoinSplit(s: string)
    ensures Join(Split(s)) == s
  {
    if s != "" {
      var rest := Split(s[1..]);
      JoinSplit(s[1..]);
      if s[0] == '.' {
        assert Split(s)[1..] == rest;
        assert s == "" + "." + s[1..];
      } else {
        assert Split(s)[1..] == rest[1..];
        assert s == [s[0]] + s[1..];
      }
    }
  }

  /** A character in front of a string joins its first segment, or starts a new one. */
  function Prefixed(c: char, segments: seq<string>): seq<string>
    requires |segments| > 0
  {
    if c == '.' then [""] + segments else [[c] + segments[0]] + segments[1..]
  }

  lemma PrefixedConcat(c: char, segments: seq<string>, more: seq<string>)
    requires |segments| > 0
    ensures Prefixed(c, segments + more) == Prefixed(c, segments) + more
  {
  }

  lemma {:induction false} SplitAroundDot(a: string, b: string)
    ensures Split(a + "." + b) == Split(a) + Split(b)
  {
    if a == "" {
      assert a + "." + b == ['.'] + b;
    } else {
      var c, rest := a[0], a[1..];
      SplitAroundDot(rest, b);
      PrefixedConcat(c, Split(rest), Split(b));
      assert a == [c] + rest;
      assert a + "." + b == [c] + (rest + "." + b);
    }
  }

  lemma {:induction false} SplitWithoutDot(s: string)
    requires '.' !in s
    ensures Split(s) == [s]
  {
    if s != "" {
      SplitWithoutDot(s[1..]);
      assert [s[0]] + s[1..] == s;
    }
  }

  /** Splitting is the inverse of joining, on segments that hold no separator. */
  lemma {:induction false} SplitJoin(segments: seq<string>)
    requires |segments| > 0
    requires forall i :: 0 <= i < |segments| ==> '.' !in segments[i]
    ensures Split(Join(segments)) == segments
  {
    SplitWithoutDot(segments[0]);
    if |segments| == 1 {
      assert segments == [segments[0]];
    } else {
      SplitJoin(segments[1..]);
      SplitAroundDot(segments[0], Join(segments[1..]));
    }
  }

  // -------------------------------------------------------------- validation

  datatype TopicError =
    | Empty
    | TooLong(len: nat, max: nat)
    | InvalidChar(c: char)
    | MultiLevelWildcardNotLast

  predicate ValidTopicChar(c: char) {
    'a' <= c <= 'z' || 'A' <= c <= 'Z' || '0' <= c <= '9' || c in {'.', '-', '_', '/'}
  }

  /** How many bytes the UTF-8 encoding of `c` takes; lengths are limited in bytes, not characters. */
  function CharLen(c: char): (n: nat)
    ensures 1 <= n <= 4
    ensures (n == 1 <==> c as int <= 127) && (n <= 2 <==> c as int <= 2047) && (n <= 3 <==> c as int <= 65535)
  {
    if c as int < 0x80 then 1 else if c as int < 0x800 then 2 else if c as int < 0x1_0000 then 3 else 4
  }

  function ByteLen(s: string): (n: nat)
    ensures n >= |s|
  {
    if s == "" then 0 else CharLen(s[0]) + ByteLen(s[1..])
  }

  predicate AllValid(s: string) {
    forall i :: 0 <= i < |s| ==> ValidTopicChar(s[i])
  }

  predicate IsTopic(s: string) {
    s != "" && ByteLen(s) <= MAX_TOPIC_LEN && AllValid(s)
  }

  /** Segment `i` may stand where it does: `#` only at the end, `+` anywhere, else topic characters. */
  predicate SegmentAllowed(segments: seq<string>, i: nat)
    requires i < |segments|
  {
    if segments[i] == "#" then i == |segments| - 1 else segments[i] == "+" || AllValid(segments[i])
  }

  predicate IsFilter(s: string) {
    && s != ""
    && ByteLen(s) <= MAX_TOPIC_LEN
    && forall i :: 0 <= i < |Split(s)| ==> SegmentAllowed(Split(s), i)
  }

  /** The first character of `s` no topic may hold. */
  function FirstInvalid(s: string): (c: Option<char>)
    ensures c.None? <==> AllValid(s)
    ensures c.Some? ==> exists i :: 0 <= i < |s| && s[i] == c.value && !ValidTopicChar(s[i]) && AllValid(s[..i])
  {
    if s == "" then None
    else if !ValidTopicChar(s[0]) then
      assert s[0] == s[0] && AllValid(s[..0]);
      Some(s[0])
    else
      var rest := FirstInvalid(s[1..]);
      assert rest.Some? ==>
        exists i :: 0 <= i < |s| && s[i] == rest.value && !ValidTopicChar(s[i]) && AllValid(s[..i]) by {
        if rest.Some? {
          var j :| 0 <= j < |s[1..]| && s[1..][j] == rest.value && !ValidTopicChar(s[1..][j]) && AllValid(s[1..][..j]);
          assert s[j + 1] == rest.value && s[..j + 1] == [s[0]] + s[1..][..j];
        }
      }
      assert s == [s[0]] + s[1..];
      rest
  }

  const LOWER := "abcdefghijklmnopqrstuvwxyz"
  const UPPER := "ABCDEFGHIJKLMNOPQRSTUVWXYZ"
  const DIGITS := "0123456789"

  lemma LowerAre(c: char)
    ensures 'a' <= c <= 'z' <==> c in LOWER
  {
    if 'a' <= c <= 'z' { assert LOWER[c as int - 'a' as int] == c; }
  }

  lemma UpperAre(c: char)
    ensures 'A' <= c <= 'Z' <==> c in UPPER
  {
    if 'A' <= c <= 'Z' { assert UPPER[c as int - 'A' as int] == c; }
  }

  lemma DigitsAre(c: char)
    ensures '0' <= c <= '9' <==> c in DIGITS
  {
    if '0' <= c <= '9' { assert DIGITS[c as int - '0' as int] == c; }
  }

  /** A letter, a digit or one of four marks. */
  predicate IsTopicChar(c: char) {
    c in LOWER || c in UPPER || c in DIGITS || c in ".-_/"
  }

  lemma TopicCharsAre(c: char)
    ensures ValidTopicChar(c) <==> IsTopicChar(c)
  {
    LowerAre(c);
    UpperAre(c);
    DigitsAre(c);
    assert c in ".-_/" <==> c in {'.', '-', '_', '/'} by {
      assert ".-_/"[0] == '.' && ".-_/"[1] == '-' && ".-_/"[2] == '_' && ".-_/"[3] == '/';
    }
  }

  /** So a topic is one to 256 of these characters, one byte each. */
  lemma {:induction false} TopicsAre(s: string)
    ensures IsTopic(s) <==> 1 <= |s| <= 256 && forall c :: c in s ==> IsTopicChar(c)
  {
    forall c: char
      ensures ValidTopicChar(c) <==> IsTopicChar(c)
    {
      TopicCharsAre(c);
    }
    if AllValid(s) {
      BytesOfValid(s);
    } else {
      var i :| 0 <= i < |s| && !ValidTopicChar(s[i]);
      assert s[i] in s;
    }
  }

  lemma {:induction false} BytesOfValid(s: string)
    requires AllValid(s)
    ensures ByteLen(s) == |s|
  {
    if s != "" {
      assert s[0] == s[0] && ValidTopicChar(s[0]);
      BytesOfValid(s[1..]);
    }
  }

  function ValidateTopic(s: string): (r: Result<(), TopicError>)
    ensures r.Ok? <==> IsTopic(s)
    ensures r == Err(Empty) <==> s == ""
    ensures r == Err(TooLong(ByteLen(s), MAX_TOPIC_LEN)) <==> ByteLen(s) > MAX_TOPIC_LEN
    ensures r.Err? && s != "" && ByteLen(s) <= MAX_TOPIC_LEN ==>
              exists i :: 0 <= i < |s| && r == Err(InvalidChar(s[i])) && !ValidTopicChar(s[i]) && AllValid(s[..i])
  {
    if s == "" then Err(Empty)
    else if ByteLen(s) > MAX_TOPIC_LEN then Err(TooLong(ByteLen(s), MAX_TOPIC_LEN))
    else match FirstInvalid(s)
      case Some(c) => Err(InvalidChar(c))
      case None => Ok(())
  }

  /** The error a disallowed segment earns: a `#` before the end its own, any other its first bad character. */
  ghost predicate EarnsError(segment: string, error: TopicError) {
    if segment == "#" then error == MultiLevelWildcardNotLast
    else exists k :: 0 <= k < |segment| && error == InvalidChar(segment[k])
           && !ValidTopicChar(segment[k]) && AllValid(segment[..k])
  }

  method ValidateFilter(s: string) returns (r: Result<(), TopicError>)
    ensures r.Ok? <==> IsFilter(s)
    ensures r == Err(Empty) <==> s == ""
    ensures r == Err(TooLong(ByteLen(s), MAX_TOPIC_LEN)) <==> ByteLen(s) > MAX_TOPIC_LEN
    ensures r.Err? && s != "" && ByteLen(s) <= MAX_TOPIC_LEN ==>
              exists i :: 0 <= i < |Split(s)| && !SegmentAllowed(Split(s), i) && EarnsError(Split(s)[i], r.error)
                          && forall j :: 0 <= j < i ==> SegmentAllowed(Split(s), j)
  {
    if s == "" { return Err(Empty); }
    if ByteLen(s) > MAX_TOPIC_LEN { return Err(TooLong(ByteLen(s), MAX_TOPIC_LEN)); }
    var segments := Split(s);
    var last := |segments| - 1;
    for i := 0 to |segments|
      invariant forall j :: 0 <= j < i ==> SegmentAllowed(segments, j)
    {
      var segment := segments[i];
      if segment == "#" {
        if i != last {
          assert !SegmentAllowed(segments, i);
          return Err(MultiLevelWildcardNotLast);
        }
        continue;
      }
      if segment == "+" { continue; }
      var invalid := FirstInvalid(segment);
      if invalid.Some? {
        assert !SegmentAllowed(segments, i);
        return Err(InvalidChar(invalid.value));
      }
    }
    return Ok(());
  }

  // --------------------------------------------------------- literal filters

  predicate IsLiteral(filter: TopicFilter) {
    var segments := Split(filter);
    forall i :: 0 <= i < |segments| ==> segments[i] != "+" && segments[i] != "#"
  }

  /** Valid characters in every segment are valid characters throughout. */
  lemma {:induction false} SegmentsAllValid(s: string)
    ensures AllValid(s) <==> forall segment :: segment in Split(s) ==> AllValid(segment)
  {
    if s != "" {
      var rest := Split(s[1..]);
      SegmentsAllValid(s[1..]);
      AllValidCons(s[0], s[1..]);
      assert s == [s[0]] + s[1..];
      if s[0] != '.' {
        AllValidCons(s[0], rest[0]);
        assert rest == [rest[0]] + rest[1..];
      }
    }
  }

  lemma AllValidCons(c: char, s: string)
    ensures AllValid([c] + s) <==> ValidTopicChar(c) && AllValid(s)
  {
    if AllValid([c] + s) {
      assert ([c] + s)[0] == c;
      assert forall i :: 0 <= i < |s| ==> s[i] == ([c] + s)[i + 1];
    }
  }

  function AsTopic(filter: TopicFilter): (topic: Option<Topic>)
    requires IsFilter(filter)
    ensures topic.Some? <==> IsLiteral(filter)
    ensures topic.Some? ==> IsTopic(topic.value) && topic.value == filter
  {
    if IsLiteral(filter) then
      SegmentsAllValid(filter);
      assert AllValid(filter) by {
        forall segment | segment in Split(filter)
          ensures AllValid(segment)
        {
          var i :| 0 <= i < |Split(filter)| && Split(filter)[i] == segment;
          assert SegmentAllowed(Split(filter), i);
        }
      }
      Some(filter)
    else None
  }

  /** Converting a topic to a filter and back loses nothing, and needs no second validation. */
  lemma TopicIsLiteralFilter(topic: Topic)
    requires IsTopic(topic)
    ensures IsFilter(topic) && IsLiteral(topic) && AsTopic(topic) == Some(topic)
  {
    SegmentsAllValid(topic);
    assert !AllValid("+") && !AllValid("#") by {
      assert !ValidTopicChar("+"[0]) && !ValidTopicChar("#"[0]);
    }
  }

  // ---------------------------------------------------------------- matching

  /** Segment-wise matching, as a function of the two segment lists. */
  predicate SegmentsMatch(filter: seq<string>, topic: seq<string>)
    decreases |filter|
  {
    if filter == [] then topic == []
    else if filter[0] == "#" then true
    else
      && topic != []
      && (filter[0] == "+" || filter[0] == topic[0])
      && SegmentsMatch(filter[1..], topic[1..])
  }

  predicate Matches(filter: TopicFilter, topic: Topic) {
    SegmentsMatch(Split(filter), Split(topic))
  }

  /** One segment of a filter stands for the run `part` of topic segments. */
  predicate StandsFor(segment: string, part: seq<string>) {
    if segment == "#" then true
    else if segment == "+" then |part| == 1
    else part == [segment]
  }

  function Concat(parts: seq<seq<string>>): seq<string> {
    if parts == [] then [] else parts[0] + Concat(parts[1..])
  }

  ghost predicate Expands(filter: seq<string>, parts: seq<seq<string>>, topic: seq<string>) {
    && |parts| == |filter|
    && Concat(parts) == topic
    && forall i :: 0 <= i < |filter| ==> StandsFor(filter[i], parts[i])
  }

  /** The language of a filter: every topic obtained by replacing each segment by what it stands for. */
  ghost predicate Denotes(filter: seq<string>, topic: seq<string>) {
    exists parts :: Expands(filter, parts, topic)
  }

  ghost predicate HashOnlyLast(filter: seq<string>) {
    forall i :: 0 <= i < |filter| - 1 ==> filter[i] != "#"
  }

  lemma {:induction false} MatchExpands(filter: seq<string>, topic: seq<string>) returns (parts: seq<seq<string>>)
    requires HashOnlyLast(filter) && SegmentsMatch(filter, topic)
    ensures Expands(filter, parts, topic)
  {
    if filter == [] {
      parts := [];
    } else if filter[0] == "#" {
      parts := [topic];
      assert Concat(parts) == topic + Concat(parts[1..]);
    } else {
      var rest := MatchExpands(filter[1..], topic[1..]);
      parts := [[topic[0]]] + rest;
      assert parts[1..] == rest;
      assert topic == [topic[0]] + topic[1..];
      forall i | 0 <= i < |filter|
        ensures StandsFor(filter[i], parts[i])
      {
        if i > 0 { assert StandsFor(filter[1..][i - 1], rest[i - 1]); }
      }
    }
  }

  lemma {:induction false} ExpansionMatches(filter: seq<string>, parts: seq<seq<string>>, topic: seq<string>)
    requires Expands(filter, parts, topic)
    ensures SegmentsMatch(filter, topic)
  {
    if filter != [] && filter[0] != "#" {
      assert StandsFor(filter[0], parts[0]);
      assert topic[1..] == Concat(parts[1..]);
      ExpansionMatches(filter[1..], parts[1..], topic[1..]);
    }
  }

  /** A valid filter matches exactly the topics in its language. */
  lemma {:induction false} MatchesIsDenotation(filter: TopicFilter, topic: Topic)
    requires IsFilter(filter)
    ensures Matches(filter, topic) <==> Denotes(Split(filter), Split(topic))
  {
    forall i | 0 <= i < |Split(filter)| - 1
      ensures Split(filter)[i] != "#"
    {
      assert SegmentAllowed(Split(filter), i);
    }
    if Matches(filter, topic) {
      var parts := MatchExpands(Split(filter), Split(topic));
    }
    if Denotes(Split(filter), Split(topic)) {
      var parts :| Expands(Split(filter), parts, Split(topic));
      ExpansionMatches(Split(filter), parts, Split(topic));
    }
  }

  /** The two-index loop decides membership in the filter's language. */
  method MatchTopic(filter: TopicFilter, topic: Topic) returns (matched: bool)
    requires IsFilter(filter)
    ensures matched == Matches(filter, topic)
    ensures matched <==> Denotes(Split(filter), Split(topic))
  {
    MatchesIsDenotation(filter, topic);
    var filterSegments, topicSegments := Split(filter), Split(topic);
    var fi, ti := 0, 0;
    while fi < |filterSegments|
      invariant fi <= |filterSegments| && ti <= |topicSegments|
      invariant Matches(filter, topic) == SegmentsMatch(filterSegments[fi..], topicSegments[ti..])
    {
      var segment := filterSegments[fi];
      if segment == "#" { return true; }
      if ti >= |topicSegments| { return false; }
      if segment != "+" && segment != topicSegments[ti] { return false; }
      assert filterSegments[fi..][1..] == filterSegments[fi + 1..];
      assert topicSegments[ti..][1..] == topicSegments[ti + 1..];
      fi := fi + 1;
      ti := ti + 1;
    }
    return ti == |topicSegments|;
  }

  // -------------------------------------------------- consequences for users

  lemma {:induction false} LiteralSegmentsMatch(filter: seq<string>, topic: seq<string>)
    requires forall i :: 0 <= i < |filter| ==> filter[i] != "+" && filter[i] != "#"
    ensures SegmentsMatch(filter, topic) <==> filter == topic
  {
    if filter != [] && topic != [] {
      LiteralSegmentsMatch(filter[1..], topic[1..]);
      assert filter == [filter[0]] + filter[1..] && topic == [topic[0]] + topic[1..];
    }
  }

  /** A literal filter matches the topic spelled the same way, and no other. */
  lemma LiteralMatchesItself(filter: TopicFilter, topic: Topic)
    requires IsLiteral(filter)
    ensures Matches(filter, topic) <==> filter == topic
  {
    LiteralSegmentsMatch(Split(filter), Split(topic));
    JoinSplit(filter);
    JoinSplit(topic);
  }

  lemma {:induction false} PrefixMatches(prefix: seq<string>, topic: seq<string>)
    requires forall i :: 0 <= i < |prefix| ==> prefix[i] != "+" && prefix[i] != "#"
    ensures SegmentsMatch(prefix + ["#"], topic) <==> prefix <= topic
  {
    var filter := prefix + ["#"];
    if prefix != [] {
      assert filter[1..] == prefix[1..] + ["#"];
      if topic != [] {
        PrefixMatches(prefix[1..], topic[1..]);
        assert prefix <= topic <==> prefix[0] == topic[0] && prefix[1..] <= topic[1..] by {
          if prefix[0] == topic[0] && prefix[1..] <= topic[1..] {
            assert prefix == [prefix[0]] + prefix[1..] && topic == [topic[0]] + topic[1..];
          }
        }
      }
    }
  }

  lemma {:induction false} ByteLenConcat(a: string, b: string)
    ensures ByteLen(a + b) == ByteLen(a) + ByteLen(b)
  {
    if a == "" {
      assert a + b == b;
    } else {
      ByteLenConcat(a[1..], b);
      assert (a + b)[1..] == a[1..] + b;
    }
  }

  /** Where a message of `topic` goes when it is given up on, under dead-letter topic `base`. */
  function DeadLetterDestination(base: Topic, topic: Topic): Topic {
    base + "." + topic
  }

  /** `base.#` is a filter, and it catches the dead letters of every topic and nothing foreign. */
  lemma {:induction false} DeadLetterFilter(base: Topic, topic: Topic)
    requires IsTopic(base) && IsTopic(topic) && IsTopic(DeadLetterDestination(base, topic))
    ensures IsFilter(base + ".#") && !IsLiteral(base + ".#")
    ensures Matches(base + ".#", DeadLetterDestination(base, topic))
    ensures forall other :: Matches(base + ".#", other) <==> Split(base) <= Split(other)
  {
    var filter := base + ".#";
    assert filter == base + "." + "#";
    SplitAroundDot(base, "#");
    SplitWithoutDot("#");
    SplitAroundDot(base, topic);
    TopicIsLiteralFilter(base);
    SegmentsAllValid(base);
    ByteLenConcat(base, ".#");
    ByteLenConcat(base + ".", topic);
    ByteLenConcat(base, ".");
    assert ByteLen(".#") == 2 && ByteLen(".") == 1 by {
      assert ".#"[1..] == "#";
      assert ".#"[1..][1..] == "";
    }
    forall i | 0 <= i < |Split(filter)|
      ensures SegmentAllowed(Split(filter), i)
    {
      if i < |Split(base)| { assert Split(filter)[i] == Split(base)[i]; }
    }
    assert Split(filter)[|Split(base)|] == "#";
    forall other
      ensures Matches(filter, other) <==> Split(base) <= Split(other)
    {
      PrefixMatches(Split(base), Split(other));
    }
  }
}
