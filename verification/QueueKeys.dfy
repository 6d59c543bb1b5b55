/** Initial-queue Redis keys: `queue:{pluginId}:{kind}:{id}` and the rate-limit key derived from them. */
module QueueKeys {
  import opened Domain

  function Split(s: string): (parts: seq<string>)
    ensures |parts| >= 1
  {
    if s == "" then [""]
    else if s[0] == ':' then [""] + Split(s[1..])
    else
      var rest := Split(s[1..]);
      [[s[0]] + rest[0]] + rest[1..]
  }

  function Join(parts: seq<string>): string {
    if |parts| == 0 then ""
    else if |parts| == 1 then parts[0]
    else parts[0] + ":" + Join(parts[1..])
  }

  predicate ColonFree(s: string) {
    ':' !in s
  }

  function BuildInitialQueueKey(pluginId: string, kind: string, id: string): string {
    "queue:" + pluginId + ":" + kind + ":" + id
  }

  function ParseInitialQueueKey(key: string): Option<seq<string>> {
    var parts := Split(key);
    if |parts| < 4 || parts[0] != "queue" || parts[1] == "" then None else Some(parts)
  }

  function PluginIdOf(key: string): Option<string> {
    var parsed := ParseInitialQueueKey(key);
    if parsed.Some? && |parsed.value| > 1 then Some(parsed.value[1]) else None
  }

  function RateLimitKey(key: string): Option<string> {
    var parsed := ParseInitialQueueKey(key);
    if parsed.Some? && |parsed.value| > 1 then Some("rate_limit:" + Join(parsed.value[1..])) else None
  }

  lemma {:induction false} JoinSplit(s: string)
    ensures Join(Split(s)) == s
  {
    if s != "" {
      JoinSplit(s[1..]);
      var rest := Split(s[1..]);
      if s[0] == ':' {
        assert ([""] + rest)[1..] == rest;
      } else if |rest| > 1 {
        assert ([[s[0]] + rest[0]] + rest[1..])[1..] == rest[1..];
      }
    }
  }

  /** Splitting a text behind a colon-free head and one separator yields the head and the split of the rest. */
  lemma {:induction false} SplitHead(head: string, rest: string)
    requires ColonFree(head)
    ensures Split(head + ":" + rest) == [head] + Split(rest)
  {
    var s := head + ":" + rest;
    if head == "" {
      assert s[1..] == rest;
    } else {
      assert s[1..] == head[1..] + ":" + rest;
      SplitHead(head[1..], rest);
      assert [s[0]] + head[1..] == head;
      assert ([head[1..]] + Split(rest))[1..] == Split(rest);
    }
  }

  lemma {:induction false} SplitFirst(s: string)
    ensures ColonFree(Split(s)[0]) && Split(s)[0] <= s
  {
    if s != "" && s[0] != ':' {
      SplitFirst(s[1..]);
    }
  }

  /**
   * The distributor's parse of a built key recovers the owning plugin exactly when the plugin id is a usable segment.
   */
  lemma BuiltKeyRoutesBack(pluginId: string, kind: string, id: string)
    ensures PluginIdOf(BuildInitialQueueKey(pluginId, kind, id)) == Some(pluginId)
      <==> pluginId != "" && ColonFree(pluginId)
  {
    var tail := pluginId + ":" + kind + ":" + id;
    var key := BuildInitialQueueKey(pluginId, kind, id);
    assert key == "queue" + ":" + tail;
    SplitHead("queue", tail);
    SplitFirst(tail);
    if ColonFree(pluginId) {
      assert tail == pluginId + ":" + (kind + ":" + id);
      SplitHead(pluginId, kind + ":" + id);
      SplitAtLeastTwo(kind, id);
    } else {
      assert Split(key)[1] == Split(tail)[0];
    }
  }

  /** Building and parsing agree on the place of each part, and the id may hold further colons. */
  lemma BuiltKeyParts(pluginId: string, kind: string, id: string)
    requires ColonFree(pluginId) && ColonFree(kind) && pluginId != ""
    ensures ParseInitialQueueKey(BuildInitialQueueKey(pluginId, kind, id))
      == Some(["queue", pluginId, kind] + Split(id))
  {
    var tail := kind + ":" + id;
    var rest := pluginId + ":" + tail;
    BuiltKeyNests(pluginId, kind, id);
    SplitHead("queue", rest);
    SplitHead(pluginId, tail);
    SplitHead(kind, id);
    SplitFirst(id);
    var parts := Split(BuildInitialQueueKey(pluginId, kind, id));
    assert parts == ["queue"] + ([pluginId] + ([kind] + Split(id)));
    assert parts == ["queue", pluginId, kind] + Split(id);
  }

  lemma BuiltKeyNests(pluginId: string, kind: string, id: string)
    ensures BuildInitialQueueKey(pluginId, kind, id) == "queue" + ":" + (pluginId + ":" + (kind + ":" + id))
  {
    assert "queue:" == "queue" + ":";
  }

  lemma {:induction false} SplitIsColonFree(s: string, i: nat)
    requires i < |Split(s)|
    ensures ColonFree(Split(s)[i])
    decreases |s|
  {
    if s != "" {
      var rest := Split(s[1..]);
      if s[0] == ':' {
        if i > 0 {
          SplitIsColonFree(s[1..], i - 1);
        }
      } else {
        SplitIsColonFree(s[1..], if i == 0 then 0 else i);
      }
    }
  }

  lemma JoinStep(parts: seq<string>)
    requires |parts| > 1
    ensures Join(parts) == parts[0] + ":" + Join(parts[1..])
  {
  }

  /** A key parses exactly when it is one that could have been built. */
  lemma ParsesIff(key: string)
    ensures ParseInitialQueueKey(key).Some? <==>
      exists pluginId, kind, id :: pluginId != "" && ColonFree(pluginId) && ColonFree(kind)
                                   && key == BuildInitialQueueKey(pluginId, kind, id)
  {
    if ParseInitialQueueKey(key).Some? {
      var parts := Split(key);
      JoinSplit(key);
      JoinStep(parts);
      JoinStep(parts[1..]);
      JoinStep(parts[2..]);
      assert parts[1..][1..] == parts[2..] && parts[2..][1..] == parts[3..];
      SplitIsColonFree(key, 1);
      SplitIsColonFree(key, 2);
      BuiltKeyNests(parts[1], parts[2], Join(parts[3..]));
      assert key == BuildInitialQueueKey(parts[1], parts[2], Join(parts[3..]));
    }
    if pluginId, kind, id :| pluginId != "" && ColonFree(pluginId) && ColonFree(kind)
                             && key == BuildInitialQueueKey(pluginId, kind, id) {
      BuiltKeyParts(pluginId, kind, id);
      SplitFirst(id);
    }
  }

  lemma {:induction false} SplitAtLeastTwo(kind: string, id: string)
    ensures |Split(kind + ":" + id)| >= 2
  {
    var s := kind + ":" + id;
    if kind != "" {
      assert s[1..] == kind[1..] + ":" + id;
      SplitAtLeastTwo(kind[1..], id);
    }
  }

  /** A valid key is the text `queue:` followed by the part its rate-limit key keeps. */
  lemma RateLimitKeyKeepsTail(key: string)
    requires RateLimitKey(key).Some?
    ensures exists tail :: key == "queue:" + tail && RateLimitKey(key).value == "rate_limit:" + tail
  {
    var parts := Split(key);
    JoinSplit(key);
    var tail := Join(parts[1..]);
    assert key == parts[0] + ":" + tail;
    PrefixOf(tail);
    assert key == "queue:" + tail;
  }

  lemma PrefixOf(tail: string)
    ensures "queue" + ":" + tail == "queue:" + tail
  {
    assert "queue" + ":" == "queue:";
  }

  /** Two ready queues never share a concurrency set. */
  lemma RateLimitKeyInjective(a: string, b: string)
    requires RateLimitKey(a).Some? && RateLimitKey(a) == RateLimitKey(b)
    ensures a == b
  {
    RateLimitKeyKeepsTail(a);
    RateLimitKeyKeepsTail(b);
    var ta :| a == "queue:" + ta && RateLimitKey(a).value == "rate_limit:" + ta;
    var tb :| b == "queue:" + tb && RateLimitKey(b).value == "rate_limit:" + tb;
    assert ta == ("rate_limit:" + ta)[11..];
    assert tb == ("rate_limit:" + tb)[11..];
  }

  /** The Redis text of every queue key. */
  function RedisName(q: QueueKey): string {
    match q
    case NsQ => "queue_in_flight_to_ns"
    case RelayQ => "queue_in_flight_to_relay_node"
    case DeviceQ => "queue_in_flight_to_device"
    case TaskQ(p) => "queue_awaiting_task:" + p
    case RetryQ => "queue_awaiting_retry"
    case ReadyQ(name) => name
  }

  lemma NameShape(q: QueueKey)
    requires q.ReadyQ? ==> PluginIdOf(q.name).Some?
    ensures var n := RedisName(q);
      match q
      case ReadyQ(_) => |n| > 5 && n[5] == ':'
      case TaskQ(p) => |n| >= 20 && n[5] == '_' && n[6] == 'a' && n[15] == 't' && n[20..] == p
      case RetryQ => |n| == 20 && n[5] == '_' && n[6] == 'a' && n[15] == 'r'
      case NsQ => |n| == 21 && n[5] == '_' && n[6] == 'i'
      case RelayQ => |n| == 29 && n[5] == '_' && n[6] == 'i'
      case DeviceQ => |n| == 25 && n[5] == '_' && n[6] == 'i'
  {
    if q.ReadyQ? {
      RateLimitKeyKeepsTail(q.name);
    }
  }

  /** Stage queues and valid ready queues occupy distinct Redis keys, so a queue may be named by its datatype. */
  lemma RedisNamesDistinct(a: QueueKey, b: QueueKey)
    requires a.ReadyQ? ==> PluginIdOf(a.name).Some?
    requires b.ReadyQ? ==> PluginIdOf(b.name).Some?
    requires RedisName(a) == RedisName(b)
    ensures a == b
  {
    NameShape(a);
    NameShape(b);
  }
}
