/** Kafka records, the retry headers, and where a failed record goes
    (backend/libs/pipeline/consumer.py, MessageView and StageWorker._route_failure). */
module Messages {
  import opened Text
  import opened Retry

  datatype Header = Header(name: string, value: string)

  datatype Record = Record(key: string, value: string, headers: seq<Header>)

  const RETRY_COUNT: string := "retry_count"

  /** `MessageView.retry_count`: the first such header decides; None stands for `int` raising. */
  function RetryCount(headers: seq<Header>): Option<nat> {
    if headers == [] then Some(0)
    else if headers[0].name == RETRY_COUNT then
      (if headers[0].value != "" && AllDigits(headers[0].value) then Some(Undec(headers[0].value)) else None)
    else RetryCount(headers[1..])
  }

  /** `[(k, v) for k, v in headers if k != "retry_count"]` */
  function WithoutCount(headers: seq<Header>): seq<Header> {
    if headers == [] then []
    else (if headers[0].name == RETRY_COUNT then [] else [headers[0]]) + WithoutCount(headers[1..])
  }

  function CountHeaders(headers: seq<Header>): nat {
    if headers == [] then 0
    else (if headers[0].name == RETRY_COUNT then 1 else 0) + CountHeaders(headers[1..])
  }

  /** What the worker knows of a failure: its class, the text it logs, and its own stage name. */
  datatype Failure = Failure(error: ErrorKind, text: string, stage: string)

  function ClassName(f: FailureClass): string {
    match f
    case Transient => "transient"
    case Terminal => "terminal"
    case Poison => "poison"
  }

  function CopyHeaders(headers: seq<Header>, count: nat, failure: Failure, origin: string): seq<Header> {
    WithoutCount(headers)
    + [Header(RETRY_COUNT, Dec(count + 1)),
       Header("failure_reason", if |failure.text| <= 512 then failure.text else failure.text[..512]),
       Header("failure_class", ClassName(Classify(failure.error))),
       Header("original_topic", origin),
       Header("failed_in_stage", failure.stage)]
  }

  /** Declared topics and whether each has a retry ladder. */
  type Registry = map<string, bool>

  datatype Routing = Crash | Copy(destination: string, record: Record)

  function RouteFailure(registry: Registry, policy: Policy, topic: string, record: Record, failure: Failure): Routing {
    var origin := SourceTopicOf(topic);
    var retryable := if origin in registry then registry[origin] else true;
    match RetryCount(record.headers)
    case None => Crash
    case Some(count) =>
      match Route(policy, origin, Classify(failure.error), count, retryable)
      case None => Crash
      case Some(destination) =>
        Copy(destination, Record(record.key, record.value, CopyHeaders(record.headers, count, failure, origin)))
  }

  lemma {:induction false} WithoutCountHasNone(headers: seq<Header>)
    ensures CountHeaders(WithoutCount(headers)) == 0
  {
    if headers != [] {
      WithoutCountHasNone(headers[1..]);
      CountConcat(if headers[0].name == RETRY_COUNT then [] else [headers[0]], WithoutCount(headers[1..]));
      assert [headers[0]][1..] == [];
    }
  }

  lemma {:induction false} CountConcat(a: seq<Header>, b: seq<Header>)
    ensures CountHeaders(a + b) == CountHeaders(a) + CountHeaders(b)
    ensures CountHeaders(a) == 0 ==> RetryCount(a + b) == RetryCount(b)
  {
    if a == [] {
      assert a + b == b;
    } else {
      CountConcat(a[1..], b);
      assert (a + b)[1..] == a[1..] + b;
    }
  }

  lemma CopyTailCount(count: nat, a: Header, b: Header, c: Header, d: Header)
    requires a.name != RETRY_COUNT && b.name != RETRY_COUNT && c.name != RETRY_COUNT && d.name != RETRY_COUNT
    ensures CountHeaders([Header(RETRY_COUNT, Dec(count)), a, b, c, d]) == 1
    ensures RetryCount([Header(RETRY_COUNT, Dec(count)), a, b, c, d]) == Some(count)
  {
    var hs := [Header(RETRY_COUNT, Dec(count)), a, b, c, d];
    assert [d][1..] == [];
    assert [c, d][1..] == [d];
    assert [b, c, d][1..] == [c, d];
    assert [a, b, c, d][1..] == [b, c, d];
    assert hs[1..] == [a, b, c, d];
    assert CountHeaders([d]) == 0;
    assert CountHeaders([c, d]) == 0;
    assert CountHeaders([b, c, d]) == 0;
    assert CountHeaders([a, b, c, d]) == 0;
    UndecDec(count);
  }

  lemma NamesDiffer()
    ensures "failure_reason" != RETRY_COUNT && "failure_class" != RETRY_COUNT
    ensures "original_topic" != RETRY_COUNT && "failed_in_stage" != RETRY_COUNT
  {
    assert |RETRY_COUNT| == 11 && |"failure_reason"| == 14 && |"failure_class"| == 13;
    assert |"original_topic"| == 14 && |"failed_in_stage"| == 15;
  }

  /** However many retry_count headers came in, exactly one goes out, one higher than the count read. */
  lemma CopyCountsOnce(headers: seq<Header>, count: nat, failure: Failure, origin: string)
    ensures CountHeaders(CopyHeaders(headers, count, failure, origin)) == 1
    ensures RetryCount(CopyHeaders(headers, count, failure, origin)) == Some(count + 1)
  {
    WithoutCountHasNone(headers);
    NamesDiffer();
    var hs := CopyHeaders(headers, count, failure, origin)[|WithoutCount(headers)|..];
    CopyTailCount(count + 1, hs[1], hs[2], hs[3], hs[4]);
    CountConcat(WithoutCount(headers), hs);
    assert CopyHeaders(headers, count, failure, origin) == WithoutCount(headers) + hs;
  }

  /** The values of one header, in order. */
  function ValuesOf(headers: seq<Header>, name: string): seq<string> {
    if headers == [] then []
    else (if headers[0].name == name then [headers[0].value] else []) + ValuesOf(headers[1..], name)
  }

  lemma {:induction false} ValuesConcat(a: seq<Header>, b: seq<Header>, name: string)
    ensures ValuesOf(a + b, name) == ValuesOf(a, name) + ValuesOf(b, name)
  {
    if a == [] {
      assert a + b == b;
    } else {
      ValuesConcat(a[1..], b, name);
      assert (a + b)[1..] == a[1..] + b;
    }
  }

  lemma {:induction false} OtherValuesKept(headers: seq<Header>, name: string)
    ensures ValuesOf(WithoutCount(headers), name) == if name == "retry_count" then [] else ValuesOf(headers, name)
  {
    if headers != [] {
      OtherValuesKept(headers[1..], name);
      ValuesConcat(if headers[0].name == RETRY_COUNT then [] else [headers[0]], WithoutCount(headers[1..]), name);
      assert [headers[0]][1..] == [];
    }
  }

  lemma TailValues(a: Header, b: Header, c: Header, d: Header, e: Header, name: string)
    requires a.name == "retry_count" && b.name == "failure_reason" && c.name == "failure_class"
    requires d.name == "original_topic" && e.name == "failed_in_stage"
    ensures ValuesOf([a, b, c, d, e], name)
            == match name
               case "retry_count" => [a.value]
               case "failure_reason" => [b.value]
               case "failure_class" => [c.value]
               case "original_topic" => [d.value]
               case "failed_in_stage" => [e.value]
               case _ => []
  {
    ValuesConcat([a], [b, c, d, e], name);
    ValuesConcat([b], [c, d, e], name);
    ValuesConcat([c], [d, e], name);
    ValuesConcat([d], [e], name);
    assert [a] + [b, c, d, e] == [a, b, c, d, e] && [b] + [c, d, e] == [b, c, d, e];
    assert [c] + [d, e] == [c, d, e] && [d] + [e] == [d, e];
    assert [a][1..] == [] && [b][1..] == [] && [c][1..] == [] && [d][1..] == [] && [e][1..] == [];
  }

  function Reason(text: string): string {
    if |text| <= 512 then text else text[..512]
  }

  /** What a copy tells: every header of the message stays, but for the count; the count goes up by one; and the
      reason, cut to 512, the class of the error, the original topic and the stage are added. */
  lemma CopyTells(headers: seq<Header>, count: nat, failure: Failure, origin: string, name: string)
    ensures ValuesOf(CopyHeaders(headers, count, failure, origin), name)
            == match name
               case "retry_count" => [Dec(count + 1)]
               case "failure_reason" => ValuesOf(headers, name) + [Reason(failure.text)]
               case "failure_class" =>
                 ValuesOf(headers, name) + [match failure.error case UnknownEventType => "poison" case TerminalError => "terminal" case _ => "transient"]
               case "original_topic" => ValuesOf(headers, name) + [origin]
               case "failed_in_stage" => ValuesOf(headers, name) + [failure.stage]
               case _ => ValuesOf(headers, name)
  {
    OtherValuesKept(headers, name);
    var tail := CopyHeaders(headers, count, failure, origin)[|WithoutCount(headers)|..];
    assert CopyHeaders(headers, count, failure, origin) == WithoutCount(headers) + tail;
    ValuesConcat(WithoutCount(headers), tail, name);
    TailValues(tail[0], tail[1], tail[2], tail[3], tail[4], name);
  }

  /** Where a failed message goes: nowhere if its count cannot be read, or if its original topic is declared
      without a retry ladder and the failure is transient; a topic that is not declared has one. */
  lemma FailureGoes(registry: Registry, policy: Policy, topic: string, record: Record, failure: Failure)
    ensures var origin, count := SourceTopicOf(topic), RetryCount(record.headers);
            var final := failure.error == UnknownEventType || failure.error == TerminalError;
            match RouteFailure(registry, policy, topic, record, failure)
            case Crash => count.None? || (!final && origin in registry && !registry[origin])
            case Copy(destination, copy) =>
              && count.Some? && (final || origin !in registry || registry[origin])
              && copy.key == record.key && copy.value == record.value
              && destination == if final || count.value >= |policy| then origin + ".dlq" else origin + ".retry." + policy[count.value]
  {
  }
}
