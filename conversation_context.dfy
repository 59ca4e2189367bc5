/** Ai::ConversationContextService: the context window of a conversation, i.e. its most recent
    qualifying messages, oldest first, formatted as role-tagged entries. */
module ConversationContext {
  import opened Outcomes
  import opened Text

  /** MAX_MESSAGES. */
  const MaxMessages: nat := 15

  /** Message#message_type. */
  datatype MessageType = Incoming | Outgoing | Activity | Template

  /** A created_at value: the instant it orders by, and its ISO-8601 rendering. */
  datatype Time = Time(epoch: int, iso8601: string)

  /** A message row with its sender preloaded; `sender` is the sender's name, None when the
      message has no sender. */
  datatype Message = Message(
    messageType: MessageType,
    content: Option<string>,
    sender: Option<string>,
    createdAt: Time)

  /** One element of the array build_context returns. */
  datatype ContextEntry = ContextEntry(role: string, content: string, sender: string, timestamp: string)

  function Min(a: nat, b: nat): nat {
    if a <= b then a else b
  }

  /** The two `where` clauses: type incoming or outgoing, content neither nil nor ''. */
  predicate Qualifies(m: Message) {
    && (m.messageType == Incoming || m.messageType == Outgoing)
    && m.content.Some?
    && m.content.value != ""
  }

  /** The qualifying messages, in table order. Every qualifying message is kept as often as it
      occurs, every other one is dropped. */
  function Qualifying(ms: seq<Message>): (r: seq<Message>)
    ensures forall i :: 0 <= i < |r| ==> Qualifies(r[i])
    ensures forall m :: multiset(r)[m] == if Qualifies(m) then multiset(ms)[m] else 0
  {
    if ms == [] then []
    else
      var rest := Qualifying(ms[1..]);
      assert ms == [ms[0]] + ms[1..];
      (if Qualifies(ms[0]) then [ms[0]] else []) + rest
  }

  predicate NewestFirst(s: seq<Message>) {
    forall i, j :: 0 <= i < j < |s| ==> s[i].createdAt.epoch >= s[j].createdAt.epoch
  }

  predicate OldestFirst(s: seq<Message>) {
    forall i, j :: 0 <= i < j < |s| ==> s[i].createdAt.epoch <= s[j].createdAt.epoch
  }

  /** Prepending an element no older than everything in a newest-first sequence keeps it
      newest first. */
  lemma ConsNewestFirst(a: Message, t: seq<Message>)
    requires NewestFirst(t)
    requires forall x :: x in t ==> x.createdAt.epoch <= a.createdAt.epoch
    ensures NewestFirst([a] + t)
  {
    var s := [a] + t;
    forall i, j | 0 <= i < j < |s|
      ensures s[i].createdAt.epoch >= s[j].createdAt.epoch
    {
      assert s[j] == t[j - 1];
      if i > 0 {
        assert s[i] == t[i - 1];
      }
    }
  }

  function InsertByNewest(m: Message, s: seq<Message>): (r: seq<Message>)
    requires NewestFirst(s)
    ensures NewestFirst(r)
    ensures |r| == |s| + 1
    ensures forall x :: x in r ==> x == m || x in s
  {
    if s == [] || m.createdAt.epoch >= s[0].createdAt.epoch then
      ConsNewestFirst(m, s);
      [m] + s
    else
      var rest := InsertByNewest(m, s[1..]);
      ConsNewestFirst(s[0], rest);
      [s[0]] + rest
  }

  lemma {:induction false} InsertPermutes(m: Message, s: seq<Message>)
    requires NewestFirst(s)
    ensures multiset(InsertByNewest(m, s)) == multiset(s) + multiset{m}
  {
    if s != [] && m.createdAt.epoch < s[0].createdAt.epoch {
      InsertPermutes(m, s[1..]);
      assert s == [s[0]] + s[1..];
    }
  }

  /** `order(created_at: :desc)`, as a stable insertion sort on the instant. */
  function SortNewestFirst(s: seq<Message>): (r: seq<Message>)
    ensures NewestFirst(r)
  {
    if s == [] then [] else InsertByNewest(s[0], SortNewestFirst(s[1..]))
  }

  lemma {:induction false} SortPermutes(s: seq<Message>)
    ensures multiset(SortNewestFirst(s)) == multiset(s)
  {
    if s != [] {
      SortPermutes(s[1..]);
      InsertPermutes(s[0], SortNewestFirst(s[1..]));
      assert s == [s[0]] + s[1..];
    }
  }

  /** Array#reverse. */
  function Reverse<T>(s: seq<T>): (r: seq<T>)
    ensures |r| == |s|
    ensures forall i :: 0 <= i < |s| ==> r[i] == s[|s| - 1 - i]
  {
    if s == [] then [] else Reverse(s[1..]) + [s[0]]
  }

  lemma {:induction false} ReversePermutes<T>(s: seq<T>)
    ensures multiset(Reverse(s)) == multiset(s)
  {
    if s != [] {
      ReversePermutes(s[1..]);
      assert s == [s[0]] + s[1..];
    }
  }

  /** fetch_recent_messages: filter, order newest first, limit to MAX_MESSAGES, reverse. */
  function SelectRecent(ms: seq<Message>): seq<Message> {
    var sorted := SortNewestFirst(Qualifying(ms));
    Reverse(sorted[..Min(MaxMessages, |sorted|)])
  }

  /** Reversing a newest-first sequence gives an oldest-first one. */
  lemma ReverseOldestFirst(s: seq<Message>)
    requires NewestFirst(s)
    ensures OldestFirst(Reverse(s))
  {
    var r := Reverse(s);
    forall i, j | 0 <= i < j < |r|
      ensures r[i].createdAt.epoch <= r[j].createdAt.epoch
    {
      assert r[i] == s[|s| - 1 - i] && r[j] == s[|s| - 1 - j];
    }
  }

  /** In a newest-first sequence, nothing after position n is newer than anything before it. */
  lemma PrefixIsNewest(s: seq<Message>, n: nat)
    requires NewestFirst(s) && n <= |s|
    ensures forall x, y :: x in multiset(s[n..]) && y in s[..n] ==> x.createdAt.epoch <= y.createdAt.epoch
  {
    forall x, y | x in multiset(s[n..]) && y in s[..n]
      ensures x.createdAt.epoch <= y.createdAt.epoch
    {
      var k :| 0 <= k < |s[n..]| && s[n..][k] == x;
      var l :| 0 <= l < n && s[..n][l] == y;
      assert s[l] == y && s[n + k] == x;
    }
  }

  /** A prefix of a newest-first sequence is newest first. */
  lemma PrefixNewestFirst(s: seq<Message>, n: nat)
    requires NewestFirst(s) && n <= |s|
    ensures NewestFirst(s[..n])
  {
  }

  /** The newest n, reversed, are a part of the sorted sequence: together with the rest they
      make up all of it. */
  lemma TakePermutes(sorted: seq<Message>, n: nat)
    requires n <= |sorted|
    ensures multiset(Reverse(sorted[..n])) + multiset(sorted[n..]) == multiset(sorted)
  {
    assert sorted == sorted[..n] + sorted[n..];
    ReversePermutes(sorted[..n]);
  }

  /** None of the elements left out is newer than any of the first n. */
  lemma TakeIsNewest(sorted: seq<Message>, n: nat)
    requires NewestFirst(sorted) && n <= |sorted|
    ensures var r := Reverse(sorted[..n]);
      forall m, i :: m in multiset(sorted[n..]) && 0 <= i < |r| ==>
        m.createdAt.epoch <= r[i].createdAt.epoch
  {
    var r := Reverse(sorted[..n]);
    forall m, i | m in multiset(sorted[n..]) && 0 <= i < |r|
      ensures m.createdAt.epoch <= r[i].createdAt.epoch
    {
      var k :| 0 <= k < |sorted[n..]| && sorted[n..][k] == m;
      assert r[i] == sorted[n - 1 - i];
      assert m == sorted[n + k];
    }
  }

  lemma SelectRecentLength(ms: seq<Message>)
    ensures |SelectRecent(ms)| == Min(MaxMessages, |Qualifying(ms)|)
  {
    var q := Qualifying(ms);
    SortPermutes(q);
    assert |multiset(SortNewestFirst(q))| == |multiset(q)|;
  }

  lemma SelectRecentDrawn(ms: seq<Message>)
    ensures multiset(SelectRecent(ms)) <= multiset(Qualifying(ms))
    ensures forall i :: 0 <= i < |SelectRecent(ms)| ==> Qualifies(SelectRecent(ms)[i])
  {
    var q := Qualifying(ms);
    var sorted := SortNewestFirst(q);
    var r := SelectRecent(ms);
    SortPermutes(q);
    TakePermutes(sorted, Min(MaxMessages, |sorted|));
    forall i | 0 <= i < |r|
      ensures Qualifies(r[i])
    {
      assert r[i] in multiset(q);
    }
  }

  lemma SelectRecentOrdered(ms: seq<Message>)
    ensures OldestFirst(SelectRecent(ms))
  {
    var sorted := SortNewestFirst(Qualifying(ms));
    var n := Min(MaxMessages, |sorted|);
    PrefixNewestFirst(sorted, n);
    ReverseOldestFirst(sorted[..n]);
  }

  lemma SelectRecentNewest(ms: seq<Message>)
    ensures var r := SelectRecent(ms);
      forall m, i :: m in multiset(Qualifying(ms)) - multiset(r) && 0 <= i < |r| ==>
        m.createdAt.epoch <= r[i].createdAt.epoch
  {
    var q := Qualifying(ms);
    var sorted := SortNewestFirst(q);
    var n := Min(MaxMessages, |sorted|);
    SortPermutes(q);
    TakePermutes(sorted, n);
    TakeIsNewest(sorted, n);
    assert multiset(q) - multiset(SelectRecent(ms)) == multiset(sorted[n..]);
  }

  lemma SelectRecentAllWhenFew(ms: seq<Message>)
    requires |Qualifying(ms)| <= MaxMessages
    ensures multiset(SelectRecent(ms)) == multiset(Qualifying(ms))
  {
    var q := Qualifying(ms);
    var sorted := SortNewestFirst(q);
    SortPermutes(q);
    assert |multiset(sorted)| == |multiset(q)|;
    TakePermutes(sorted, |sorted|);
    assert sorted[|sorted|..] == [];
  }

  /** The selected messages are min(15, #qualifying) qualifying messages in ascending
      created_at order; they are the newest ones (no qualifying message left out is newer than
      any selected one), and when at most 15 qualify, all of them are selected. */
  lemma SelectRecentSpec(ms: seq<Message>)
    ensures var r := SelectRecent(ms);
      && |r| == Min(MaxMessages, |Qualifying(ms)|)
      && (forall i :: 0 <= i < |r| ==> Qualifies(r[i]))
      && OldestFirst(r)
      && multiset(r) <= multiset(Qualifying(ms))
      && (|Qualifying(ms)| <= MaxMessages ==> multiset(r) == multiset(Qualifying(ms)))
      && (forall m, i :: m in multiset(Qualifying(ms)) - multiset(r) && 0 <= i < |r| ==>
            m.createdAt.epoch <= r[i].createdAt.epoch)
  {
    SelectRecentLength(ms);
    SelectRecentDrawn(ms);
    SelectRecentOrdered(ms);
    SelectRecentNewest(ms);
    if |Qualifying(ms)| <= MaxMessages {
      SelectRecentAllWhenFew(ms);
    }
  }

  /** determine_role. */
  function DetermineRole(t: MessageType): string {
    match t
    case Incoming => "user"
    case Outgoing => "assistant"
    case _ => "user"
  }

  /** format_message_content, given the sender's name. */
  function FormatContent(m: Message, senderName: string): string {
    var content := Strip(if m.content.Some? then m.content.value else "");
    if m.messageType == Incoming then senderName + ": " + content else content
  }

  /** The hash format_messages_for_ai builds for one message; `message.sender.name` raises
      NoMethodError when the message has no sender. */
  function FormatMessage(m: Message): Result<ContextEntry> {
    match m.sender
    case None => Err(RuntimeError("undefined method 'name' for nil"))
    case Some(name) =>
      Ok(ContextEntry(DetermineRole(m.messageType), FormatContent(m, name), name, m.createdAt.iso8601))
  }

  /** format_messages_for_ai: `map` over the messages, raising at the first message that has
      no sender. */
  function FormatMessages(ms: seq<Message>): Result<seq<ContextEntry>> {
    if ms == [] then Ok([])
    else
      match FormatMessage(ms[0])
      case Err(f) => Err(f)
      case Ok(e) =>
        match FormatMessages(ms[1..])
        case Err(f) => Err(f)
        case Ok(rest) => Ok([e] + rest)
  }

  /** format_messages_for_ai succeeds exactly when every message has a sender; otherwise it
      raises the NoMethodError of the first message without one. */
  lemma {:induction false} FormatMessagesOk(ms: seq<Message>)
    ensures FormatMessages(ms).Ok? <==> forall i :: 0 <= i < |ms| ==> ms[i].sender.Some?
    ensures FormatMessages(ms).Err? ==> FormatMessages(ms).fault == RuntimeError("undefined method 'name' for nil")
  {
    if ms != [] {
      FormatMessagesOk(ms[1..]);
      assert forall i :: 1 <= i < |ms| ==> ms[1..][i - 1] == ms[i];
    }
  }

  /** When it succeeds, the i-th entry is the formatting of the i-th message. */
  lemma {:induction false} FormatMessagesAt(ms: seq<Message>)
    requires FormatMessages(ms).Ok?
    ensures |FormatMessages(ms).value| == |ms|
    ensures forall i :: 0 <= i < |ms| ==> FormatMessage(ms[i]) == Ok(FormatMessages(ms).value[i])
  {
    if ms != [] {
      var tail := FormatMessages(ms[1..]);
      FormatMessagesAt(ms[1..]);
      var r := FormatMessages(ms).value;
      assert r == [FormatMessage(ms[0]).value] + tail.value;
      forall i | 1 <= i < |ms|
        ensures FormatMessage(ms[i]) == Ok(r[i])
      {
        assert ms[1..][i - 1] == ms[i];
        assert r[i] == tail.value[i - 1];
      }
    }
  }

  /** build_context. */
  function BuildContext(ms: seq<Message>): Result<seq<ContextEntry>> {
    FormatMessages(SelectRecent(ms))
  }

  /** The entry made from one qualifying message: role "user" for incoming and "assistant" for
      outgoing, content stripped and, for incoming messages only, prefixed with the sender's
      name; sender name and timestamp copied from the message. */
  lemma FormatQualifying(m: Message, e: ContextEntry)
    requires Qualifies(m) && FormatMessage(m) == Ok(e)
    ensures m.sender.Some?
    ensures e.role == (if m.messageType == Incoming then "user" else "assistant")
    ensures e.content == (if m.messageType == Incoming
                          then m.sender.value + ": " + Strip(m.content.value)
                          else Strip(m.content.value))
    ensures e.sender == m.sender.value && e.timestamp == m.createdAt.iso8601
  {
  }

  /** What build_context returns: one entry per selected message, in the same order, formatted
      as FormatQualifying states. It fails exactly when a selected message has no sender, and it
      is empty exactly when nothing qualifies. */
  lemma BuildContextSpec(ms: seq<Message>)
    ensures var sel, r := SelectRecent(ms), BuildContext(ms);
      && (r.Ok? <==> forall i :: 0 <= i < |sel| ==> sel[i].sender.Some?)
      && (r.Ok? ==>
           && |r.value| == |sel| == Min(MaxMessages, |Qualifying(ms)|)
           && (r.value == [] <==> Qualifying(ms) == [])
           && forall i :: 0 <= i < |sel| ==> Qualifies(sel[i]) && FormatMessage(sel[i]) == Ok(r.value[i]))
  {
    SelectRecentSpec(ms);
    FormatMessagesOk(SelectRecent(ms));
    if BuildContext(ms).Ok? {
      FormatMessagesAt(SelectRecent(ms));
    }
  }

  /** The i-th entry of a context, spelled out: it is made from the i-th selected message. */
  lemma ContextEntryAt(ms: seq<Message>, i: nat)
    requires BuildContext(ms).Ok? && i < |SelectRecent(ms)|
    ensures i < |BuildContext(ms).value|
    ensures var m, e := SelectRecent(ms)[i], BuildContext(ms).value[i];
      && Qualifies(m) && m.sender.Some?
      && e.role == (if m.messageType == Incoming then "user" else "assistant")
      && e.content == (if m.messageType == Incoming
                       then m.sender.value + ": " + Strip(m.content.value)
                       else Strip(m.content.value))
      && e.sender == m.sender.value
      && e.timestamp == m.createdAt.iso8601
  {
    BuildContextSpec(ms);
    FormatQualifying(SelectRecent(ms)[i], BuildContext(ms).value[i]);
  }

  /** Every entry of a context is tagged "user" or "assistant", never anything else. */
  lemma ContextRoles(ms: seq<Message>)
    requires BuildContext(ms).Ok?
    ensures forall e :: e in BuildContext(ms).value ==> e.role == "user" || e.role == "assistant"
  {
    BuildContextSpec(ms);
    var sel, r := SelectRecent(ms), BuildContext(ms).value;
    forall e | e in r
      ensures e.role == "user" || e.role == "assistant"
    {
      var i :| 0 <= i < |r| && r[i] == e;
      FormatQualifying(sel[i], e);
    }
  }

  /** A whitespace-only content passes the filter, yet an outgoing message with it yields an
      entry whose content is "". */
  lemma WhitespaceOutgoingIsEmpty(m: Message, senderName: string)
    requires m.messageType == Outgoing
    requires m.content.Some? && m.content.value != "" && AllStripSpace(m.content.value)
    ensures Qualifies(m)
    ensures FormatContent(m, senderName) == ""
  {
    StripEmptyIffBlank(m.content.value);
  }
}
