/** Reading a whole conversation page by page from the memory broker. */
module MemoryPages {
  import opened Messages

  const PAGE_LIMIT := 1000
  const MAX_PAGES := 1000

  /** A page of raw records, or a request that failed. */
  datatype Reply = NoReply | Page(items: seq<string>, hasMore: bool, next: Option<int>)

  /** What the broker answers to its n-th request with a cursor: anything at all. */
  type Broker = (nat, Option<int>) -> Reply

  type Decoder = string -> Option<Message>

  function DecodePage(decode: Decoder, items: seq<string>): Option<seq<Message>> {
    if items == [] then Some([])
    else
      var first, rest := decode(items[0]), DecodePage(decode, items[1..]);
      if first.None? || rest.None? then None else Some([first.value] + rest.value)
  }

  /** The messages, or None for every way of failing. */
  function ReadFrom(broker: Broker, decode: Decoder, page: nat, cursor: Option<int>, soFar: seq<Message>): Option<seq<Message>>
    decreases MAX_PAGES - page
  {
    if page >= MAX_PAGES then None
    else
      var reply := broker(page, cursor);
      if reply.NoReply? then None
      else
        var decoded := DecodePage(decode, reply.items);
        if decoded.None? then None
        else
          var now := soFar + decoded.value;
          if !reply.hasMore then Some(now)
          else if reply.next.None? || (cursor.Some? && reply.next.value <= cursor.value) then None
          else ReadFrom(broker, decode, page + 1, reply.next, now)
  }

  /** The replies received until the reading stops. */
  function Replies(broker: Broker, page: nat, cursor: Option<int>): seq<Reply>
    decreases MAX_PAGES - page
  {
    if page >= MAX_PAGES then []
    else
      var reply := broker(page, cursor);
      [reply] + if reply.Page? && reply.hasMore && reply.next.Some?
                   && (cursor.None? || reply.next.value > cursor.value)
                then Replies(broker, page + 1, reply.next) else []
  }

  function Items(replies: seq<Reply>): seq<string> {
    if replies == [] then []
    else (if replies[0].Page? then replies[0].items else []) + Items(replies[1..])
  }

  lemma {:induction false} DecodeAppend(decode: Decoder, a: seq<string>, b: seq<string>)
    ensures var da, db := DecodePage(decode, a), DecodePage(decode, b);
      DecodePage(decode, a + b) == if da.Some? && db.Some? then Some(da.value + db.value) else None
  {
    if a == [] {
      assert a + b == b;
      var db := DecodePage(decode, b);
      assert db.Some? ==> [] + db.value == db.value;
    } else {
      assert (a + b)[1..] == a[1..] + b;
      DecodeAppend(decode, a[1..], b);
      var first, da, db := decode(a[0]), DecodePage(decode, a[1..]), DecodePage(decode, b);
      if first.Some? && da.Some? && db.Some? {
        assert [first.value] + (da.value + db.value) == ([first.value] + da.value) + db.value;
      }
    }
  }

  /** Every record can be decoded. */
  predicate Decodable(decode: Decoder, items: seq<string>) {
    forall i | 0 <= i < |items| :: decode(items[i]).Some?
  }

  /** A page is read exactly when every record of it can be decoded, and then record by record. */
  lemma {:induction false} DecodedRecordByRecord(decode: Decoder, items: seq<string>)
    ensures var decoded := DecodePage(decode, items);
      && (decoded.Some? <==> Decodable(decode, items))
      && (decoded.Some? ==>
            && |decoded.value| == |items|
            && forall i | 0 <= i < |items| :: decode(items[i]) == Some(decoded.value[i]))
  {
    if items != [] {
      DecodedRecordByRecord(decode, items[1..]);
      assert Decodable(decode, items) <==> decode(items[0]).Some? && Decodable(decode, items[1..]) by {
        assert forall i | 0 < i < |items| :: items[i] == items[1..][i - 1];
      }
    }
  }

  /** The cursor the i-th request carries: the first none or a given one, then the one handed over last. */
  function CursorBefore(cursor: Option<int>, replies: seq<Reply>, i: nat): Option<int>
    requires i <= |replies|
  {
    if i == 0 then cursor else if replies[i - 1].Page? then replies[i - 1].next else None
  }

  /** The reply promises more and hands over a cursor beyond the one it was asked with. */
  predicate LeadsOn(reply: Reply, cursor: Option<int>) {
    reply.Page? && reply.hasMore && reply.next.Some? && (cursor.Some? ==> cursor.value < reply.next.value)
  }

  /** The replies are what the broker answers request by request; each but the last leads
      on, and the last does not, unless it is the thousandth page. */
  ghost predicate Chain(broker: Broker, page: nat, cursor: Option<int>, replies: seq<Reply>) {
    && (forall i | 0 <= i < |replies| :: replies[i] == broker(page + i, CursorBefore(cursor, replies, i)))
    && (forall i | 0 <= i < |replies| - 1 :: LeadsOn(replies[i], CursorBefore(cursor, replies, i)))
    && page + |replies| <= 1000
    && if replies == [] then page == 1000
       else LeadsOn(replies[|replies| - 1], CursorBefore(cursor, replies, |replies| - 1)) ==> page + |replies| == 1000
  }

  lemma ChainCons(broker: Broker, page: nat, cursor: Option<int>, reply: Reply, rest: seq<Reply>)
    requires page < 1000 && reply == broker(page, cursor)
    requires if LeadsOn(reply, cursor) then Chain(broker, page + 1, reply.next, rest) else rest == []
    ensures Chain(broker, page, cursor, [reply] + rest)
  {
    var replies := [reply] + rest;
    forall i | 0 <= i < |replies|
      ensures replies[i] == broker(page + i, CursorBefore(cursor, replies, i))
      ensures i < |replies| - 1 ==> LeadsOn(replies[i], CursorBefore(cursor, replies, i))
      ensures i > 0 ==> CursorBefore(cursor, replies, i) == CursorBefore(reply.next, rest, i - 1)
    {
      if i > 0 {
        assert replies[i] == rest[i - 1];
        assert CursorBefore(cursor, replies, i) == CursorBefore(reply.next, rest, i - 1);
      }
    }
  }

  lemma {:induction false} RepliesChain(broker: Broker, page: nat, cursor: Option<int>)
    requires page <= 1000
    ensures Chain(broker, page, cursor, Replies(broker, page, cursor))
    decreases 1000 - page
  {
    if page < MAX_PAGES {
      var reply := broker(page, cursor);
      if LeadsOn(reply, cursor) {
        RepliesChain(broker, page + 1, reply.next);
        ChainCons(broker, page, cursor, reply, Replies(broker, page + 1, reply.next));
      } else {
        ChainCons(broker, page, cursor, reply, []);
      }
    }
  }

  lemma Regroup(a: seq<Message>, b: seq<Message>, c: seq<Message>)
    ensures a + b + c == a + (b + c)
  {
  }

  /** What replies come down to behind what has been read already. */
  function Read(decode: Decoder, replies: seq<Reply>, soFar: seq<Message>): Option<seq<Message>> {
    var decoded := DecodePage(decode, Items(replies));
    if Complete(replies) && decoded.Some? then Some(soFar + decoded.value) else None
  }

  lemma ReadCons(decode: Decoder, reply: Reply, rest: seq<Reply>, soFar: seq<Message>)
    requires reply.Page? && reply.hasMore
    ensures var decoded := DecodePage(decode, reply.items);
      Read(decode, [reply] + rest, soFar) == if decoded.None? then None else Read(decode, rest, soFar + decoded.value)
  {
    assert ([reply] + rest)[1..] == rest;
    DecodeAppend(decode, reply.items, Items(rest));
    CompleteCons(reply, rest);
    var decoded, later := DecodePage(decode, reply.items), DecodePage(decode, Items(rest));
    if decoded.Some? && later.Some? {
      Regroup(soFar, decoded.value, later.value);
    }
  }

  lemma ReadLast(decode: Decoder, reply: Reply, soFar: seq<Message>)
    ensures Read(decode, [reply], soFar) ==
      if reply.Page? && !reply.hasMore && DecodePage(decode, reply.items).Some?
      then Some(soFar + DecodePage(decode, reply.items).value) else None
  {
    var replies := [reply];
    assert replies[1..] == [] && (reply.Page? ==> reply.items + [] == reply.items);
    assert Complete(replies) <==> replies[0].Page? && !replies[0].hasMore;
    assert Items(replies) == (if reply.Page? then reply.items else []) + Items(replies[1..]);
    assert reply.Page? ==> Items(replies) == reply.items;
  }

  lemma {:induction false} ReadsWhatReplies(broker: Broker, decode: Decoder, page: nat, cursor: Option<int>, soFar: seq<Message>)
    requires page <= MAX_PAGES
    ensures ReadFrom(broker, decode, page, cursor, soFar) == Read(decode, Replies(broker, page, cursor), soFar)
    decreases MAX_PAGES - page
  {
    if page < MAX_PAGES {
      var reply := broker(page, cursor);
      if LeadsOn(reply, cursor) {
        var decoded := DecodePage(decode, reply.items);
        ReadCons(decode, reply, Replies(broker, page + 1, reply.next), soFar);
        if decoded.Some? {
          ReadsWhatReplies(broker, decode, page + 1, reply.next, soFar + decoded.value);
        }
      } else {
        ReadLast(decode, reply, soFar);
        assert [reply] + [] == [reply];
      }
    }
  }

  /** Every request was answered, and just the last answer says that there is no more. */
  predicate Complete(replies: seq<Reply>) {
    replies != [] && forall i | 0 <= i < |replies| :: replies[i].Page? && (replies[i].hasMore <==> i + 1 < |replies|)
  }

  lemma CompleteCons(reply: Reply, rest: seq<Reply>)
    requires reply.Page? && reply.hasMore
    ensures Complete([reply] + rest) <==> Complete(rest)
  {
    var replies := [reply] + rest;
    assert forall i | 0 < i < |replies| :: replies[i] == rest[i - 1];
    if Complete(replies) {
      assert replies[0].hasMore;
      forall i | 0 <= i < |rest| ensures rest[i].Page? && (rest[i].hasMore <==> i + 1 < |rest|) {
        assert rest[i] == replies[i + 1];
      }
    }
  }

  /** Against any broker: at most a thousand requests, each with the cursor of the reply
      before it, as long as that lies beyond the one before; and the reading succeeds
      exactly when every request was answered, the last answer says that there is no more,
      and every record of every page can be decoded. The result is then all of them in order. */
  lemma NeverPartial(broker: Broker, decode: Decoder)
    ensures var result, replies := ReadFrom(broker, decode, 0, None, []), Replies(broker, 0, None);
      && Chain(broker, 0, None, replies)
      && (result.Some? <==> Complete(replies) && Decodable(decode, Items(replies)))
      && (result.Some? ==>
            && |result.value| == |Items(replies)|
            && forall i | 0 <= i < |result.value| :: decode(Items(replies)[i]) == Some(result.value[i]))
  {
    var replies := Replies(broker, 0, None);
    RepliesChain(broker, 0, None);
    ReadsWhatReplies(broker, decode, 0, None, []);
    DecodedRecordByRecord(decode, Items(replies));
    var decoded := DecodePage(decode, Items(replies));
    assert decoded.Some? ==> [] + decoded.value == decoded.value;
  }

  /** A record of the broker's log. */
  datatype Record = Record(sequence: int, raw: string)

  ghost predicate Increasing(log: seq<Record>) {
    forall i, j | 0 <= i < j < |log| :: log[i].sequence < log[j].sequence
  }

  /** The first record after the cursor. */
  function After(log: seq<Record>, cursor: Option<int>): (k: nat)
    ensures k <= |log|
    ensures forall i | 0 <= i < k :: cursor.Some? && log[i].sequence <= cursor.value
    ensures k < |log| ==> cursor.None? || log[k].sequence > cursor.value
  {
    if log == [] || cursor.None? || log[0].sequence > cursor.value then 0
    else
      var k := After(log[1..], cursor);
      assert forall i | 0 < i < |log| :: log[i] == log[1..][i - 1];
      k + 1
  }

  function Raw(log: seq<Record>): seq<string> {
    seq(|log|, i requires 0 <= i < |log| => log[i].raw)
  }

  function PageEnd(log: seq<Record>, k: nat): nat {
    if k + PAGE_LIMIT < |log| then k + PAGE_LIMIT else |log|
  }

  /** A broker that serves the log: the next records after the cursor, up to the
      page limit, and the sequence number of the last one as the next cursor. */
  ghost predicate Serves(broker: Broker, log: seq<Record>) {
    forall n, cursor :: broker(n, cursor) ==
      var k := After(log, cursor);
      var end := PageEnd(log, k);
      Page(Raw(log[k..end]), end < |log|, if end > k then Some(log[end - 1].sequence) else None)
  }

  lemma {:induction false} AfterLast(log: seq<Record>, k: nat)
    requires Increasing(log) && 0 < k <= |log|
    ensures After(log, Some(log[k - 1].sequence)) == k
  {
    assert forall i | 0 < i < |log| :: log[i] == log[1..][i - 1];
    if k > 1 {
      AfterLast(log[1..], k - 1);
    }
  }

  /** Where the reading stands after `k` records. */
  function CursorAt(log: seq<Record>, k: nat): Option<int>
    requires k <= |log|
  {
    if k == 0 then None else Some(log[k - 1].sequence)
  }

  lemma RawSplit(log: seq<Record>, k: nat, end: nat)
    requires k <= end <= |log|
    ensures Raw(log[k..]) == Raw(log[k..end]) + Raw(log[end..])
  {
    assert log[k..] == log[k..end] + log[end..];
  }

  lemma FaithfulPage(broker: Broker, log: seq<Record>, page: nat, k: nat)
    requires Increasing(log) && Serves(broker, log) && k <= |log|
    ensures var end := PageEnd(log, k);
      && broker(page, CursorAt(log, k)) ==
           Page(Raw(log[k..end]), end < |log|, if end > k then Some(log[end - 1].sequence) else None)
      && Raw(log[k..]) == Raw(log[k..end]) + Raw(log[end..])
      && (k < end && k > 0 ==> log[k - 1].sequence < log[end - 1].sequence)
  {
    if k > 0 {
      AfterLast(log, k);
    }
    RawSplit(log, k, PageEnd(log, k));
    assert After(log, CursorAt(log, k)) == k;
  }

  lemma PageRead(broker: Broker, decode: Decoder, page: nat, cursor: Option<int>, soFar: seq<Message>)
    requires page < MAX_PAGES && broker(page, cursor).Page?
    requires var reply := broker(page, cursor);
      reply.hasMore ==> reply.next.Some? && (cursor.None? || reply.next.value > cursor.value)
    ensures var reply := broker(page, cursor);
      var decoded := DecodePage(decode, reply.items);
      ReadFrom(broker, decode, page, cursor, soFar) ==
        if decoded.None? then None
        else if !reply.hasMore then Some(soFar + decoded.value)
        else ReadFrom(broker, decode, page + 1, reply.next, soFar + decoded.value)
  {
  }

  /** One page of a faithful broker carries the reading from record `k` to the next. */
  lemma FaithfulStep(broker: Broker, decode: Decoder, log: seq<Record>, page: nat, k: nat, soFar: seq<Message>)
    requires Increasing(log) && Serves(broker, log) && k <= |log| && page < MAX_PAGES && (k > 0 ==> k < |log|)
    ensures var end := PageEnd(log, k);
      var decoded := DecodePage(decode, Raw(log[k..end]));
      ReadFrom(broker, decode, page, CursorAt(log, k), soFar) ==
        if decoded.None? then None
        else if end == |log| then Some(soFar + decoded.value)
        else ReadFrom(broker, decode, page + 1, CursorAt(log, end), soFar + decoded.value)
  {
    FaithfulPage(broker, log, page, k);
    PageRead(broker, decode, page, CursorAt(log, k), soFar);
  }

  lemma DecodeSplit(decode: Decoder, log: seq<Record>, k: nat, end: nat)
    requires k <= end <= |log|
    ensures var decoded, rest := DecodePage(decode, Raw(log[k..end])), DecodePage(decode, Raw(log[end..]));
      && DecodePage(decode, Raw(log[k..]))
         == (if decoded.Some? && rest.Some? then Some(decoded.value + rest.value) else None)
      && (end == |log| ==> rest == Some([]))
  {
    RawSplit(log, k, end);
    DecodeAppend(decode, Raw(log[k..end]), Raw(log[end..]));
    assert end == |log| ==> Raw(log[end..]) == [];
  }

  lemma {:induction false} FaithfulFrom(broker: Broker, decode: Decoder, log: seq<Record>, page: nat, k: nat, soFar: seq<Message>)
    requires Increasing(log) && Serves(broker, log)
    requires page <= MAX_PAGES && k == page * PAGE_LIMIT <= |log| && (page > 0 ==> k < |log|)
    ensures var rest := DecodePage(decode, Raw(log[k..]));
      ReadFrom(broker, decode, page, CursorAt(log, k), soFar)
      == if rest.Some? && |log| <= MAX_PAGES * PAGE_LIMIT then Some(soFar + rest.value) else None
    decreases MAX_PAGES - page
  {
    if page < MAX_PAGES {
      var end := PageEnd(log, k);
      FaithfulStep(broker, decode, log, page, k, soFar);
      DecodeSplit(decode, log, k, end);
      var decoded, rest := DecodePage(decode, Raw(log[k..end])), DecodePage(decode, Raw(log[end..]));
      if end == |log| {
        assert decoded.Some? ==> decoded.value + [] == decoded.value;
      } else if decoded.Some? {
        FaithfulFrom(broker, decode, log, page + 1, end, soFar + decoded.value);
        if rest.Some? {
          Regroup(soFar, decoded.value, rest.value);
        }
      }
    }
  }

  /** Against a broker that serves its log, the reading returns the whole log, once
      and in order, exactly when every record can be decoded and the log fits the
      page cap; otherwise it fails. */
  lemma FaithfulBrokerReadsAll(broker: Broker, decode: Decoder, log: seq<Record>)
    requires Increasing(log) && Serves(broker, log)
    ensures ReadFrom(broker, decode, 0, None, []) ==
      if |log| <= MAX_PAGES * PAGE_LIMIT then DecodePage(decode, Raw(log)) else None
  {
    FaithfulFrom(broker, decode, log, 0, 0, []);
    assert log[0..] == log;
    var all := DecodePage(decode, Raw(log));
    assert all.Some? ==> [] + all.value == all.value;
  }

  method DecodeMessagePage(decode: Decoder, records: seq<string>) returns (messages: Option<seq<Message>>)
    ensures messages == DecodePage(decode, records)
  {
    var decoded := [];
    for i := 0 to |records|
      invariant DecodePage(decode, records[..i]) == Some(decoded)
    {
      var m := decode(records[i]);
      DecodeAppend(decode, records[..i], records[i..]);
      assert records[..i] + records[i..] == records;
      DecodeAppend(decode, records[..i], [records[i]]);
      assert records[..i + 1] == records[..i] + [records[i]];
      assert [records[i]][1..] == [] && records[i..][0] == records[i];
      assert DecodePage(decode, []) == Some([]) && (m.Some? ==> [m.value] + [] == [m.value]);
      assert DecodePage(decode, [records[i]]) == if m.Some? then Some([m.value]) else None;
      if m.None? {
        return None;
      }
      decoded := decoded + [m.value];
    }
    assert records[..|records|] == records;
    messages := Some(decoded);
  }

  method GetMessages(broker: Broker, decode: Decoder) returns (result: Option<seq<Message>>)
    ensures result == ReadFrom(broker, decode, 0, None, [])
  {
    var messages: seq<Message> := [];
    var cursor: Option<int> := None;
    for page := 0 to MAX_PAGES
      invariant ReadFrom(broker, decode, page, cursor, messages) == ReadFrom(broker, decode, 0, None, [])
    {
      var response := broker(page, cursor);
      if response.NoReply? {
        return None;
      }
      var pageMessages := DecodeMessagePage(decode, response.items);
      if pageMessages.None? {
        return None;
      }
      messages := messages + pageMessages.value;
      if !response.hasMore {
        return Some(messages);
      }
      if response.next.None? {
        return None;
      }
      if cursor.Some? && response.next.value <= cursor.value {
        return None;
      }
      cursor := response.next;
    }
    result := None;
  }
}
