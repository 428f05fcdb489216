/** One browser's outbox (`browser-outbox.ts`): what waits for its socket,
    priority first, within bounds, one message under way at a time. */
module Outbox {
  import opened Options

  datatype Kind = Console | Priority | Resource

  datatype Item = Item(action: Option<string>, encoded: string)

  // One waiting for room, and for how much.
  datatype Waiter = Waiter(id: nat, bytes: nat)

  datatype Answer = Answer(id: nat, open: bool)

  // A message's length in bytes, its UTF-8 bytes a character each.
  function Bytes(item: Item): nat {
    |item.encoded|
  }

  function TotalBytes(items: seq<Item>): nat {
    if items == [] then 0 else Bytes(items[0]) + TotalBytes(items[1..])
  }

  lemma {:induction false} TotalAppends(items: seq<Item>, item: Item)
    ensures TotalBytes(items + [item]) == TotalBytes(items) + Bytes(item)
  {
    if items == [] {
      assert [] + [item] == [item];
    } else {
      assert (items + [item])[1..] == items[1..] + [item];
      TotalAppends(items[1..], item);
    }
  }

  function ItemsOf(item: Option<Item>): seq<Item> {
    if item.Some? then [item.value] else []
  }

  // A message, as it came to the outbox or left it.
  datatype Entry = Entry(kind: Kind, item: Item)

  function OfKind(entries: seq<Entry>, kind: Kind): seq<Item> {
    if entries == [] then []
    else
      var last := entries[|entries| - 1];
      OfKind(entries[..|entries| - 1], kind) + if last.kind == kind then [last.item] else []
  }

  lemma {:induction false} OfKindMore(entries: seq<Entry>, entry: Entry, kind: Kind)
    ensures OfKind(entries + [entry], kind) == OfKind(entries, kind) + if entry.kind == kind then [entry.item] else []
  {
    assert (entries + [entry])[..|entries|] == entries;
  }

  ghost predicate InTurn(asked: seq<nat>, answers: seq<Answer>, waiters: seq<Waiter>) {
    && |asked| == |answers| + |waiters|
    && (forall i | 0 <= i < |answers| :: answers[i].id == asked[i])
    && (forall i | |answers| <= i < |asked| :: waiters[i - |answers|].id == asked[i])
  }

  // What was given of a kind is what has left, then what waits.
  ghost predicate Queued(given: seq<Entry>, gone: seq<Entry>, kind: Kind, queue: seq<Item>) {
    OfKind(given, kind) == OfKind(gone, kind) + queue
  }

  lemma QueuedMore(given: seq<Entry>, gone: seq<Entry>, kind: Kind, queue: seq<Item>, entry: Entry)
    requires Queued(given, gone, kind, queue)
    ensures Queued(given + [entry], gone, kind, if entry.kind == kind then queue + [entry.item] else queue)
  {
    OfKindMore(given, entry, kind);
  }

  lemma QueuedLess(given: seq<Entry>, gone: seq<Entry>, kind: Kind, queue: seq<Item>, entry: Entry)
    requires Queued(given, gone, kind, queue)
    requires entry.kind == kind ==> queue != [] && queue[0] == entry.item
    ensures Queued(given, gone + [entry], kind, if entry.kind == kind then queue[1..] else queue)
  {
    OfKindMore(gone, entry, kind);
    hide OfKind;
    if entry.kind == kind { assert queue == [queue[0]] + queue[1..]; }
  }

  // An outbox as it is, with all it was given, all that has left it, and all
  // that was asked of and answered to those waiting.
  datatype Facts = Facts(
    priority: seq<Item>, normal: seq<Item>, resource: Option<Item>, bytes: int, closed: bool, sending: bool,
    waiters: seq<Waiter>, wakeDue: bool,
    given: seq<Entry>, gone: seq<Entry>, asked: seq<nat>, answers: seq<Answer>)
  {
    function Count(): nat {
      |priority| + |normal| + |ItemsOf(resource)|
    }

    predicate Counted() {
      bytes == TotalBytes(priority) + TotalBytes(normal) + TotalBytes(ItemsOf(resource))
    }

    predicate Bounded(maxBytes: nat, maxMessages: nat) {
      !closed ==> bytes <= maxBytes && Count() <= maxMessages
    }

    // What the outbox was given of a queue's kind is what has left it, then
    // what waits, in order; of resources, only the newest waits.
    ghost predicate Ordered() {
      && (if closed then
            OfKind(gone, Priority) <= OfKind(given, Priority) && OfKind(gone, Console) <= OfKind(given, Console)
          else
            Queued(given, gone, Priority, priority) && Queued(given, gone, Console, normal))
      && (resource.Some? ==> Newest(resource.value))
    }

    ghost predicate Newest(item: Item) {
      var resources := OfKind(given, Resource);
      resources != [] && resources[|resources| - 1] == item
    }

    // Those who wait are answered in the order they asked, and, until the
    // outbox closes, that there's room.
    ghost predicate Answered() {
      InTurn(asked, answers, waiters) && (!closed ==> forall answer | answer in answers :: answer.open)
    }

    // While anything waits to be sent, something is under way; and while
    // anyone waits for room, that or a wake is to come.
    predicate Moving() {
      !closed ==> (Count() > 0 ==> sending) && (waiters != [] ==> sending || wakeDue)
    }

    ghost predicate ValidButMoving(maxBytes: nat, maxMessages: nat) {
      Counted() && Bounded(maxBytes, maxMessages) && Ordered() && Answered()
    }
  }

  function Added(f: Facts, kind: Kind, item: Item): Facts {
    var g := f.(given := f.given + [Entry(kind, item)]);
    match kind
    case Priority => g.(priority := f.priority + [item], bytes := f.bytes + Bytes(item))
    case Console => g.(normal := f.normal + [item], bytes := f.bytes + Bytes(item))
    case Resource =>
      g.(resource := Some(item),
         bytes := f.bytes + Bytes(item) - if f.resource.Some? then Bytes(f.resource.value) else 0)
  }

  lemma AddKeepsOrder(f: Facts, kind: Kind, item: Item)
    requires f.Ordered() && !f.closed
    ensures Added(f, kind, item).Ordered()
  {
    hide OfKind, Queued;
    QueuedMore(f.given, f.gone, Priority, f.priority, Entry(kind, item));
    QueuedMore(f.given, f.gone, Console, f.normal, Entry(kind, item));
    OfKindMore(f.given, Entry(kind, item), Resource);
  }

  lemma AddKeeps(f: Facts, kind: Kind, item: Item)
    requires f.Counted() && f.Ordered() && f.Answered() && !f.closed
    ensures var g := Added(f, kind, item); g.Counted() && g.Ordered() && g.Answered()
  {
    hide OfKind, Queued, InTurn;
    AddKeepsOrder(f, kind, item);
    AddKeepsCount(f, kind, item);
  }

  lemma AddKeepsCount(f: Facts, kind: Kind, item: Item)
    requires f.Counted()
    ensures Added(f, kind, item).Counted()
  {
    hide TotalBytes;
    TotalAppends(f.priority, item);
    TotalAppends(f.normal, item);
    TotalOne(f.resource);
    TotalOne(Some(item));
  }

  lemma TotalOne(item: Option<Item>)
    ensures TotalBytes(ItemsOf(item)) == if item.Some? then Bytes(item.value) else 0
  {
  }

  // The message that goes next, and the outbox without it.
  function First(f: Facts): Entry
    requires f.Count() > 0
  {
    if f.priority != [] then Entry(Priority, f.priority[0])
    else if f.normal != [] then Entry(Console, f.normal[0])
    else Entry(Resource, f.resource.value)
  }

  function Taken(f: Facts): Facts
    requires f.Count() > 0
  {
    var first := First(f);
    var g := f.(gone := f.gone + [first], bytes := f.bytes - Bytes(first.item));
    match first.kind
    case Priority => g.(priority := f.priority[1..])
    case Console => g.(normal := f.normal[1..])
    case Resource => g.(resource := None)
  }

  // What leaves an outbox as it sends its next message: that, and whatever was
  // before it that its browser may no longer have.
  function Departing(f: Facts, authorize: Option<string> -> bool): seq<Entry>
    decreases f.Count()
  {
    if f.Count() == 0 then []
    else
      var first := First(f);
      [first] + if authorize(first.item.action) then [] else Departing(Taken(f), authorize)
  }

  lemma {:induction false} DepartsFirst(f: Facts, authorize: Option<string> -> bool, gone: seq<Entry>)
    ensures f.Count() == 0 ==> gone + Departing(f, authorize) == gone
    ensures f.Count() > 0 ==>
              gone + Departing(f, authorize) ==
              (gone + [First(f)]) + if authorize(First(f).item.action) then [] else Departing(Taken(f), authorize)
  {
  }

  // The message at `i` of those that wait, in the order they go.
  ghost predicate GoesAt(f: Facts, i: nat, entry: Entry) {
    if i < |f.priority| then entry == Entry(Priority, f.priority[i])
    else if i < |f.priority| + |f.normal| then entry == Entry(Console, f.normal[i - |f.priority|])
    else i == |f.priority| + |f.normal| && f.resource.Some? && entry == Entry(Resource, f.resource.value)
  }

  lemma GoesNext(f: Facts, i: nat, entry: Entry)
    requires f.Count() > 0 && i > 0 && GoesAt(Taken(f), i - 1, entry)
    ensures GoesAt(f, i, entry)
  {
  }

  lemma {:induction false} DepartingFirst(f: Facts, authorize: Option<string> -> bool)
    ensures f.Count() == 0 ==> Departing(f, authorize) == []
    ensures f.Count() > 0 ==>
              && GoesAt(f, 0, First(f)) && Taken(f).Count() < f.Count()
              && Departing(f, authorize) ==
                 [First(f)] + if authorize(First(f).item.action) then [] else Departing(Taken(f), authorize)
  {
  }

  // Priority goes first, and each kind in order; the last of it alone may be
  // had by its browser.
  lemma {:induction false} DepartsInOrder(f: Facts, authorize: Option<string> -> bool, i: nat)
    requires i < |Departing(f, authorize)|
    ensures GoesAt(f, i, Departing(f, authorize)[i])
    ensures i < |Departing(f, authorize)| - 1 ==> !authorize(Departing(f, authorize)[i].item.action)
    decreases f.Count()
  {
    hide Departing, Taken, First, GoesAt, Facts.Count;
    DepartingFirst(f, authorize);
    if i > 0 {
      DepartsInOrder(Taken(f), authorize, i - 1);
      GoesNext(f, i, Departing(f, authorize)[i]);
    }
  }

  lemma TakeKeepsOrder(f: Facts)
    requires f.Ordered() && !f.closed && f.Count() > 0
    ensures Taken(f).Ordered()
  {
    hide OfKind, Queued;
    QueuedLess(f.given, f.gone, Priority, f.priority, First(f));
    QueuedLess(f.given, f.gone, Console, f.normal, First(f));
  }

  lemma CloseKeepsOrder(f: Facts)
    requires f.Ordered()
    ensures f.(closed := true).Ordered()
    ensures f.(closed := true, priority := [], normal := [], resource := None).Ordered()
  {
    hide OfKind;
  }

  lemma FlagsKeep(f: Facts, maxBytes: nat, maxMessages: nat, sending: bool, wakeDue: bool)
    requires f.ValidButMoving(maxBytes, maxMessages)
    ensures f.(sending := sending, wakeDue := wakeDue).ValidButMoving(maxBytes, maxMessages)
  {
    hide OfKind, TotalBytes, Queued, InTurn;
  }

  lemma TakeKeepsCount(f: Facts)
    requires f.Counted() && f.Count() > 0
    ensures Taken(f).Counted() && Taken(f).Count() == f.Count() - 1
  {
    TotalOne(f.resource);
  }

  lemma TakeKeeps(f: Facts, maxBytes: nat, maxMessages: nat)
    requires f.ValidButMoving(maxBytes, maxMessages) && !f.closed && f.Count() > 0
    ensures Taken(f).ValidButMoving(maxBytes, maxMessages) && Taken(f).Count() == f.Count() - 1
  {
    hide Facts.Ordered, Facts.Counted, InTurn, OfKind, TotalBytes;
    TakeKeepsOrder(f);
    TakeKeepsCount(f);
  }

  lemma FailKeeps(f: Facts, maxBytes: nat, maxMessages: nat)
    requires f.ValidButMoving(maxBytes, maxMessages)
    ensures f.(closed := true).ValidButMoving(maxBytes, maxMessages)
  {
    hide OfKind, TotalBytes, Queued, InTurn;
    CloseKeepsOrder(f);
  }

  // Whoever has waited longest is answered.
  lemma AnswerKeeps(f: Facts, open: bool)
    requires f.Answered() && f.waiters != [] && (!f.closed ==> open)
    ensures f.(answers := f.answers + [Answer(f.waiters[0].id, open)], waiters := f.waiters[1..]).Answered()
  {
    assert f.waiters[0].id == f.asked[|f.answers|];
  }

  class Outbox {
    const maxBytes: nat
    const maxMessages: nat
    var priority: seq<Item>
    var normal: seq<Item>
    var resource: Option<Item>
    var bytes: int
    var closed: bool
    var sending: bool
    var waiters: seq<Waiter>
    var wakeDue: bool            // a wake is set to come
    ghost var given: seq<Entry>
    ghost var gone: seq<Entry>
    ghost var asked: seq<nat>
    ghost var answers: seq<Answer>

    ghost function Now(): Facts
      reads this
    {
      Facts(priority, normal, resource, bytes, closed, sending, waiters, wakeDue, given, gone, asked, answers)
    }

    ghost predicate ValidButMoving()
      reads this
    {
      Now().ValidButMoving(maxBytes, maxMessages)
    }

    ghost predicate Valid()
      reads this
    {
      ValidButMoving() && Now().Moving()
    }

    constructor (maxBytes: nat, maxMessages: nat)
      ensures Valid() && this.maxBytes == maxBytes && this.maxMessages == maxMessages && !closed && given == []
    {
      this.maxBytes, this.maxMessages := maxBytes, maxMessages;
      priority, normal, resource, bytes := [], [], None, 0;
      closed, sending, waiters, wakeDue := false, false, [], false;
      given, gone, asked, answers := [], [], [], [];
    }

    function MessageCount(): nat
      reads this
    {
      |priority| + |normal| + if resource.Some? then 1 else 0
    }

    predicate HasRoomFor(more: nat)
      reads this
    {
      MessageCount() == 0 || (2 * (bytes + more) <= maxBytes && 2 * MessageCount() < maxMessages)
    }

    // There is room for more while nothing is queued, or as long as what is
    // then leaves as many bytes again free, and as many messages.
    lemma RoomMeans(more: nat)
      requires Valid()
      ensures HasRoomFor(more) <==>
                || (priority == [] && normal == [] && resource == None)
                || (bytes + more <= maxBytes - (bytes + more) && MessageCount() < maxMessages - MessageCount())
    {
    }

    // And then one of that size isn't too many.
    lemma RoomIsEnough(kind: Kind, item: Item)
      requires Valid() && !closed && HasRoomFor(Bytes(item)) && Bytes(item) <= maxBytes && maxMessages > 0
      ensures Added(Now(), kind, item).Bounded(maxBytes, maxMessages)
    {
    }

    // Refuses whoever waits, and empties the outbox.
    method Close()
      requires Now().Counted() && Now().Ordered() && Now().Answered()
      modifies this
      ensures Valid() && closed && bytes == 0 && MessageCount() == 0 && waiters == []
      ensures given == old(given) && gone == old(gone) && asked == old(asked)
      ensures |answers| == |asked| && old(answers) <= answers
      ensures forall i | |old(answers)| <= i < |answers| :: answers[i] == Answer(asked[i], false)
    {
      hide OfKind, Queued;
      CloseKeepsOrder(Now());
      closed := true;
      priority, normal, resource, bytes := [], [], None, 0;
      RefuseAll();
    }

    // Everyone waiting is told there will be no room, in order.
    method RefuseAll()
      requires closed && Now().Answered()
      modifies this`waiters, this`answers
      ensures Now().Answered() && waiters == [] && old(answers) <= answers
      ensures forall i | |old(answers)| <= i < |answers| :: answers[i] == Answer(asked[i], false)
    {
      while waiters != []
        invariant Now().Answered() && old(answers) <= answers
        invariant forall i | |old(answers)| <= i < |answers| :: answers[i] == Answer(asked[i], false)
        decreases |waiters|
      {
        AnswerKeeps(Now(), false);
        assert waiters[0].id == asked[|answers|];
        answers := answers + [Answer(waiters[0].id, false)];
        waiters := waiters[1..];
      }
    }

    // Tells whoever has waited longest, if there's room for it now. The next
    // is looked at again later, once it has had time to send.
    method Wake()
      requires ValidButMoving()
      modifies this`waiters, this`wakeDue, this`answers
      ensures ValidButMoving()
      ensures var waits := old(waiters) != [] && !closed && HasRoomFor(old(waiters)[0].bytes);
              if waits then
                waiters == old(waiters)[1..] && answers == old(answers) + [Answer(old(waiters)[0].id, true)]
                && wakeDue == (old(wakeDue) || waiters != [])
              else waiters == old(waiters) && answers == old(answers) && wakeDue == old(wakeDue)
    {
      hide OfKind, TotalBytes;
      if waiters == [] || closed || !HasRoomFor(waiters[0].bytes) { return; }
      AnswerKeeps(Now(), true);
      answers := answers + [Answer(waiters[0].id, true)];
      waiters := waiters[1..];
      if waiters != [] { wakeDue := true; }
    }

    // A wake that was set comes.
    method WakeLater()
      requires Valid()
      modifies this`waiters, this`wakeDue, this`answers
      ensures Valid()
      ensures var waits := old(waiters) != [] && !closed && HasRoomFor(old(waiters)[0].bytes);
              if waits then
                waiters == old(waiters)[1..] && answers == old(answers) + [Answer(old(waiters)[0].id, true)]
                && wakeDue == (waiters != [])
              else waiters == old(waiters) && answers == old(answers) && !wakeDue
    {
      hide OfKind, TotalBytes;
      wakeDue := false;
      Wake();
    }

    // Asks to be told once `more` bytes fit: at once, or (None) later.
    method WhenRoomFor(id: nat, more: nat) returns (open: Option<bool>)
      requires Valid()
      modifies this`waiters, this`asked
      ensures Valid()
      ensures open == Some(false) <==> closed
      ensures open == Some(true) <==> !closed && old(waiters) == [] && HasRoomFor(more)
      ensures open.None? ==> waiters == old(waiters) + [Waiter(id, more)] && asked == old(asked) + [id]
      ensures open.Some? ==> waiters == old(waiters) && asked == old(asked)
    {
      hide OfKind, TotalBytes;
      if closed { return Some(false); }
      if waiters == [] && HasRoomFor(more) { return Some(true); }
      waiters, asked := waiters + [Waiter(id, more)], asked + [id];
      open := None;
    }

    // The next message, out of the queues.
    method Next() returns (item: Option<Item>)
      requires ValidButMoving() && !closed
      modifies this`priority, this`normal, this`resource, this`bytes, this`gone
      ensures ValidButMoving()
      ensures old(MessageCount()) > 0 ==> gone == old(gone) + [First(old(Now()))]
      ensures if old(MessageCount()) == 0 then item == None && Now() == old(Now())
              else
                && Now() == Taken(old(Now())) && item == Some(First(old(Now())).item)
                && MessageCount() == old(MessageCount()) - 1
    {
      hide OfKind, TotalBytes, Facts.ValidButMoving;
      if MessageCount() == 0 { return None; }
      TakeKeeps(Now(), maxBytes, maxMessages);
      if priority != [] {
        item, priority := Some(priority[0]), priority[1..];
        gone := gone + [Entry(Priority, item.value)];
      } else if normal != [] {
        item, normal := Some(normal[0]), normal[1..];
        gone := gone + [Entry(Console, item.value)];
      } else {
        item, resource := resource, None;
        gone := gone + [Entry(Resource, item.value)];
      }
      bytes := bytes - Bytes(item.value);
    }

    // Sends the next message its browser may still have, one at a time;
    // `sent` is that message.
    method Drain(authorize: Option<string> -> bool) returns (sent: Option<Item>)
      requires ValidButMoving()
      modifies this`priority, this`normal, this`resource, this`bytes, this`gone, this`sending, this`waiters,
               this`wakeDue, this`answers
      ensures ValidButMoving() && (!closed ==> sending || MessageCount() == 0)
      ensures old(Now()).Moving() || !old(sending) ==> Valid()
      ensures old(gone) <= gone && old(answers) <= answers
      ensures old(sending) || closed ==> Now() == old(Now()) && sent == None
      ensures !old(sending) ==> (sending <==> sent.Some?)
      ensures sent.Some? ==> authorize(sent.value.action) && |old(gone)| < |gone| && gone[|gone| - 1].item == sent.value
      ensures !old(sending) && !closed ==> gone == old(gone) + Departing(old(Now()), authorize)
      decreases MessageCount()
    {
      hide OfKind, TotalBytes, Facts.ValidButMoving, Departing, Taken, First;
      sent := None;
      if sending || closed { return; }
      DepartsFirst(Now(), authorize, gone);
      var item := Next();
      if item.None? {
        Wake();
        return;
      }
      if !authorize(item.value.action) {
        sent := Drain(authorize);
        return;
      }
      FlagsKeep(Now(), maxBytes, maxMessages, true, wakeDue);
      sending, sent := true, item;
    }

    // The message under way is sent, or failed to be.
    method SendDone(failed: bool, authorize: Option<string> -> bool) returns (sent: Option<Item>)
      requires Valid() && sending
      modifies this
      ensures Valid() && given == old(given) && old(gone) <= gone && old(answers) <= answers
      ensures closed <==> old(closed) || failed
      // Whoever waits as a send fails is told nothing until the outbox closes.
      ensures failed ==> gone == old(gone) && waiters == old(waiters) && answers == old(answers) && sent == None
      // Otherwise whoever has waited longest is told, if there is room for it.
      ensures !failed && !closed && old(waiters) != [] && old(HasRoomFor(waiters[0].bytes)) ==>
                old(answers) + [Answer(old(waiters)[0].id, true)] <= answers
      ensures sending <==> sent.Some?
      ensures sent.Some? ==> authorize(sent.value.action) && |old(gone)| < |gone| && gone[|gone| - 1].item == sent.value
    {
      hide OfKind, TotalBytes, Facts.ValidButMoving;
      FlagsKeep(Now(), maxBytes, maxMessages, false, wakeDue);
      sending, sent := false, None;
      if failed {
        FailKeeps(Now(), maxBytes, maxMessages);
        closed := true;
        return;
      }
      Wake();
      sent := Drain(authorize);
    }

    method Overflow()
      requires Now().Counted() && Now().Ordered() && Now().Answered()
      modifies this
      ensures Valid() && closed && waiters == [] && given == old(given) && gone == old(gone)
    {
      Close();
    }

    // A message for the browser. One too many, or too long, ends it all.
    method Send(item: Item, kind: Kind, open: bool, authorize: Option<string> -> bool) returns (accepted: bool)
      requires Valid()
      modifies this
      ensures Valid()
      ensures accepted ==>
                && open && !closed && authorize(item.action) && given == old(given) + [Entry(kind, item)]
                && bytes <= maxBytes && MessageCount() <= maxMessages
      ensures !accepted && !closed ==> Now() == old(Now())
      ensures !accepted && open && authorize(item.action) ==> closed
      ensures accepted <==>
                && !old(closed) && open && authorize(item.action) && Bytes(item) <= maxBytes
                && Added(old(Now()), kind, item).Bounded(maxBytes, maxMessages)
    {
      hide OfKind, TotalBytes, Facts.Ordered, Facts.Counted, Facts.Answered;
      if closed || !open || !authorize(item.action) { return false; }
      if Bytes(item) > maxBytes {
        Overflow();
        return false;
      }
      AddKeeps(Now(), kind, item);
      if kind == Resource {
        if resource.Some? { bytes := bytes - Bytes(resource.value); }
        resource := Some(item);
      } else if kind == Priority {
        priority := priority + [item];
      } else {
        normal := normal + [item];
      }
      bytes := bytes + Bytes(item);
      given := given + [Entry(kind, item)];
      if bytes > maxBytes || MessageCount() > maxMessages {
        Overflow();
        return false;
      }
      var sent := Drain(authorize);
      accepted := true;
    }
  }
}
