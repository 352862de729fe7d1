/** Reading the server's reply to the four-letter `srvr` command: the first
    whitespace-free token after a fixed key, as `re.findall(r'<key>(\S+)')`
    followed by taking element 0 finds it. The reply arrives here as text; the
    socket exchange that fetches it is not part of this model. */
module Srvr {
  import opened Wrappers
  import opened Text

  const ModeLabel := "Mode: "
  const VersionLabel := "Zookeeper version: "

  /** The mode reported when the reply carries no `Mode: ` line. */
  const Initializing := "initializing"

  /** The version reported when the reply carries no version line. */
  const VersionUnknown := "SOMETHING IS WRONG PLEASE DEBUG"

  /** The version string is cut to this many characters. */
  const VersionMaxLength := 15

  /** The pattern `key(\S+)` matches at index `i` of `s`: the key occurs
      there and at least one non-whitespace character follows it. */
  predicate MatchAt(s: string, key: string, i: nat) {
    && i + |key| < |s|
    && s[i..i + |key|] == key
    && !IsSpace(s[i + |key|])
  }

  /** `i` is where the regular-expression search finds its first match. */
  ghost predicate LeftmostMatch(s: string, key: string, i: nat) {
    && MatchAt(s, key, i)
    && forall j: nat :: j < i ==> !MatchAt(s, key, j)
  }

  /** `t` is what the greedy group `(\S+)` captures when it starts at `k`: a
      non-empty run of non-whitespace that stops at whitespace or at the end. */
  ghost predicate CapturedAt(s: string, k: nat, t: string) {
    && 0 < |t|
    && k + |t| <= |s|
    && s[k..k + |t|] == t
    && NoSpace(t)
    && (k + |t| == |s| || IsSpace(s[k + |t|]))
  }

  /** The first index at or after `from` where the pattern matches. */
  function FindMatch(s: string, key: string, from: nat): (r: Option<nat>)
    ensures r.Some? ==> from <= r.value && MatchAt(s, key, r.value)
    ensures r.Some? ==> forall j: nat :: from <= j < r.value ==> !MatchAt(s, key, j)
    ensures r.None? ==> forall j: nat :: from <= j ==> !MatchAt(s, key, j)
    decreases |s| - from
  {
    if from + |key| >= |s| then None
    else if MatchAt(s, key, from) then Some(from)
    else FindMatch(s, key, from + 1)
  }

  /** The end of the run of non-whitespace that starts at `k`. */
  function RunEnd(s: string, k: nat): (e: nat)
    requires k <= |s|
    ensures k <= e <= |s|
    ensures forall m :: k <= m < e ==> !IsSpace(s[m])
    ensures e == |s| || IsSpace(s[e])
    decreases |s| - k
  {
    if k == |s| || IsSpace(s[k]) then k else RunEnd(s, k + 1)
  }

  /** The group the leftmost match of `key(\S+)` captures, if the pattern
      matches anywhere in `s`: the greedy run of non-whitespace after the key
      at the index `FindMatch` returns. */
  function FirstCapture(s: string, key: string): (r: Option<string>)
    ensures r.None? <==> FindMatch(s, key, 0).None?
    ensures r.Some? ==> CapturedAt(s, FindMatch(s, key, 0).value + |key|, r.value)
  {
    match FindMatch(s, key, 0)
    case None => None
    case Some(i) =>
      var k := i + |key|;
      Some(s[k..RunEnd(s, k)])
  }

  /** The greedy group that starts at a given index is unique. */
  lemma GroupIsUnique(s: string, k: nat, t1: string, t2: string)
    requires CapturedAt(s, k, t1) && CapturedAt(s, k, t2)
    ensures t1 == t2
  {
    assert forall m :: k <= m < k + |t1| ==> s[m] == t1[m - k];
    assert forall m :: k <= m < k + |t2| ==> s[m] == t2[m - k];
    assert |t1| == |t2|;
    assert t1 == s[k..k + |t1|];
  }

  /** There is one leftmost match, and the greedy group captures one string
      there, so a leftmost match and its group are fully determined. */
  lemma CaptureIsUnique(s: string, key: string, i1: nat, t1: string, i2: nat, t2: string)
    requires LeftmostMatch(s, key, i1) && CapturedAt(s, i1 + |key|, t1)
    requires LeftmostMatch(s, key, i2) && CapturedAt(s, i2 + |key|, t2)
    ensures i1 == i2 && t1 == t2
  {
    assert i1 == i2;
    GroupIsUnique(s, i1 + |key|, t1, t2);
  }

  /** The search finds the leftmost match, and nothing exactly when nothing
      matches. */
  lemma FindMatchIsLeftmost(s: string, key: string, i: nat)
    ensures FindMatch(s, key, 0) == Some(i) <==> LeftmostMatch(s, key, i)
    ensures FindMatch(s, key, 0).None? <==> forall j: nat :: !MatchAt(s, key, j)
  {
    if LeftmostMatch(s, key, i) {
      var r := FindMatch(s, key, 0);
      assert r.Some?;
      assert !(r.value < i) && !(i < r.value);
    }
  }

  /** `FirstCapture` returns the group of the leftmost match. */
  lemma FirstCaptureIsLeftmost(s: string, key: string)
    ensures FirstCapture(s, key).None? <==> forall i: nat :: !MatchAt(s, key, i)
    ensures FirstCapture(s, key).Some? ==>
              exists i: nat :: LeftmostMatch(s, key, i) && CapturedAt(s, i + |key|, FirstCapture(s, key).value)
  {
    FindMatchIsLeftmost(s, key, 0);
    if FirstCapture(s, key).Some? {
      var i := FindMatch(s, key, 0).value;
      FindMatchIsLeftmost(s, key, i);
      assert LeftmostMatch(s, key, i);
    }
  }

  /** Wherever the pattern matches, the key's first character stands. */
  lemma MatchStartsWithKey(s: string, key: string)
    requires 0 < |key|
    ensures forall i: nat :: MatchAt(s, key, i) ==> s[i] == key[0]
  {
    forall i: nat | MatchAt(s, key, i)
      ensures s[i] == key[0]
    {
      assert s[i..i + |key|][0] == s[i];
    }
  }

  /** The server's mode (`leader`, `follower`, `standalone`, ...) as
      `get_zookeeper_mode` reads it from a `srvr` reply: the greedy token
      after the leftmost `Mode: ` that a non-space follows. */
  function GetZookeeperMode(reply: string): (mode: string)
    ensures 0 < |mode| && NoSpace(mode)
    ensures FindMatch(reply, ModeLabel, 0).None? ==> mode == Initializing
    ensures FindMatch(reply, ModeLabel, 0).Some? ==>
              CapturedAt(reply, FindMatch(reply, ModeLabel, 0).value + |ModeLabel|, mode)
  {
    FirstCapture(reply, ModeLabel).GetOr(Initializing)
  }

  /** The server's version as `get_zookeeper_version` reads it from a `srvr`
      reply: the first fifteen characters of the greedy token after the
      leftmost match, or the whole token when it is shorter. */
  function GetZookeeperVersion(reply: string): (version: string)
    ensures FindMatch(reply, VersionLabel, 0).None? ==> version == VersionUnknown
    ensures FindMatch(reply, VersionLabel, 0).Some? ==>
              CutTokenAt(reply, FindMatch(reply, VersionLabel, 0).value + |VersionLabel|, version)
  {
    match FirstCapture(reply, VersionLabel)
    case None => VersionUnknown
    case Some(t) =>
      if |t| <= VersionMaxLength then t
      else
        assert forall m :: 0 <= m < VersionMaxLength ==> t[..VersionMaxLength][m] == t[m];
        t[..VersionMaxLength]
  }

  /** `key + t + rest` is matched right at `|head|` of `head + key + t + rest`,
      and the group captures exactly `t`, when `t` is a whitespace-free token
      that whitespace or the end of the text closes. */
  lemma CaptureAfter(head: string, key: string, t: string, rest: string)
    requires 0 < |t| && NoSpace(t)
    requires rest == [] || IsSpace(rest[0])
    ensures MatchAt(head + key + t + rest, key, |head|)
    ensures CapturedAt(head + key + t + rest, |head| + |key|, t)
  {
    var s := head + key + t + rest;
    assert s[|head|..|head| + |key|] == key;
    assert s[|head| + |key|..|head| + |key| + |t|] == t;
    assert s[|head| + |key|] == t[0];
    if rest != [] {
      assert s[|head| + |key| + |t|] == rest[0];
    }
  }

  /** A reply whose text before the `Mode: ` line holds no match of its own
      and does not end in `Mode: ` reports the token on that line as its
      mode. No match can straddle the end of `head` otherwise, since `M` does
      not recur inside `Mode: `. */
  lemma ModeLineIsRead(head: string, mode: string, rest: string)
    requires forall j: nat :: !MatchAt(head, ModeLabel, j)
    requires !(|ModeLabel| <= |head| && head[|head| - |ModeLabel|..] == ModeLabel)
    requires 0 < |mode| && NoSpace(mode)
    requires rest == [] || IsSpace(rest[0])
    ensures GetZookeeperMode(head + ModeLabel + mode + rest) == mode
  {
    var s := head + ModeLabel + mode + rest;
    var n := |ModeLabel|;
    CaptureAfter(head, ModeLabel, mode, rest);
    forall j: nat | j < |head|
      ensures !MatchAt(s, ModeLabel, j)
    {
      if j + n < |head| {
        assert s[j..j + n] == head[j..j + n];
        assert s[j + n] == head[j + n];
        assert !MatchAt(head, ModeLabel, j);
      } else if j + n == |head| {
        assert s[j..j + n] == head[|head| - n..];
      } else {
        assert s[j..j + n][|head| - j] == s[|head|] == 'M';
      }
    }
    FindMatchIsLeftmost(s, ModeLabel, |head|);
    GroupIsUnique(s, |head| + n, mode, GetZookeeperMode(s));
  }

  /** `v` is what the version reader reports for the token starting at `k`:
      the token's first fifteen characters, or the whole of a shorter one. */
  ghost predicate CutTokenAt(s: string, k: nat, v: string) {
    && 0 < |v| <= VersionMaxLength
    && NoSpace(v)
    && k + |v| <= |s| && s[k..k + |v|] == v
    && (|v| < VersionMaxLength ==> k + |v| == |s| || IsSpace(s[k + |v|]))
  }

  /** The cut token is the greedy token truncated to fifteen characters. */
  lemma CutTokenIsTruncation(s: string, k: nat, t: string, v: string)
    requires CapturedAt(s, k, t) && CutTokenAt(s, k, v)
    ensures v == t[..if |t| < VersionMaxLength then |t| else VersionMaxLength]
  {
    var want := t[..if |t| < VersionMaxLength then |t| else VersionMaxLength];
    forall m | 0 <= m < |t|
      ensures s[k + m] == t[m] && !IsSpace(s[k + m])
    {
      assert s[k..k + |t|][m] == s[k + m];
    }
    forall m | 0 <= m < |v|
      ensures s[k + m] == v[m]
    {
      assert s[k..k + |v|][m] == s[k + m];
    }
    assert |v| == |want|;
  }

  /** A reply that opens with the version line reports at most the first
      fifteen characters of its version token. */
  lemma VersionLineIsRead(version: string, rest: string)
    requires 0 < |version| && NoSpace(version)
    requires rest == [] || IsSpace(rest[0])
    ensures GetZookeeperVersion(VersionLabel + version + rest)
            == version[..if |version| < VersionMaxLength then |version| else VersionMaxLength]
  {
    var s := VersionLabel + version + rest;
    assert s == [] + VersionLabel + version + rest;
    CaptureAfter([], VersionLabel, version, rest);
    FindMatchIsLeftmost(s, VersionLabel, 0);
    CutTokenIsTruncation(s, |VersionLabel|, version, GetZookeeperVersion(s));
  }

  /** A reply in which no `M` occurs, such as the "not currently serving
      requests" text a starting server sends, reads as initializing. */
  lemma ReplyWithoutModeIsInitializing(reply: string)
    requires forall m :: 0 <= m < |reply| ==> reply[m] != 'M'
    ensures GetZookeeperMode(reply) == Initializing
  {
    MatchStartsWithKey(reply, ModeLabel);
  }
}
