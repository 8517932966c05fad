/** A chat group that fans messages out to its subscribers, a command that
    publishes one message to one group, and a chain of responsibility that
    validates the command before sending it. */
module ChatCommands {

  // ---------------------------------------------------------------------
  // Subscribers and the chat group
  // ---------------------------------------------------------------------

  /** A ChatUser, known to the group by its name. */
  datatype Subscriber = ChatUser(userName: string)

  /** One call of Subscriber::notify(publisherName, message). */
  datatype Delivery = Delivery(to: Subscriber, publisherName: string, message: string)

  /** What publishing `message` in group `publisherName` delivers, in list order. */
  function Deliveries(publisherName: string, subscribers: seq<Subscriber>, message: string): (ds: seq<Delivery>)
    ensures |ds| == |subscribers|
    ensures forall i :: 0 <= i < |ds| ==> ds[i] == Delivery(subscribers[i], publisherName, message)
  {
    if subscribers == [] then []
    else [Delivery(subscribers[0], publisherName, message)] + Deliveries(publisherName, subscribers[1..], message)
  }

  /** The list left by erase(remove_if(..., same name), end). */
  function RemoveByName(subscribers: seq<Subscriber>, name: string): (r: seq<Subscriber>)
    ensures forall i :: 0 <= i < |r| ==> r[i].userName != name
    ensures forall s :: s in r ==> s in subscribers
    ensures (forall i :: 0 <= i < |subscribers| ==> subscribers[i].userName != name) ==> r == subscribers
  {
    if subscribers == [] then []
    else if subscribers[0].userName == name then RemoveByName(subscribers[1..], name)
    else [subscribers[0]] + RemoveByName(subscribers[1..], name)
  }

  /** Removal works entry by entry: the entries of `a` come out before those
      of `b`, each list keeping its own order. */
  lemma {:induction false} RemoveByNameAppend(a: seq<Subscriber>, b: seq<Subscriber>, name: string)
    ensures RemoveByName(a + b, name) == RemoveByName(a, name) + RemoveByName(b, name)
    decreases |a|
  {
    if a == [] {
      assert a + b == b;
    } else {
      assert (a + b)[0] == a[0];
      assert (a + b)[1..] == a[1..] + b;
      RemoveByNameAppend(a[1..], b, name);
    }
  }

  /** A single entry stays exactly when its name differs. */
  lemma RemoveByNameSingle(s: Subscriber, name: string)
    ensures RemoveByName([s], name) == if s.userName == name then [] else [s]
  {
    assert [s][1..] == [];
  }

  /** Unsubscribing the same name twice changes nothing the second time. */
  lemma RemoveByNameIdempotent(subscribers: seq<Subscriber>, name: string)
    ensures RemoveByName(RemoveByName(subscribers, name), name) == RemoveByName(subscribers, name)
  {
  }

  /** Every entry with another name survives, as often as it was listed. */
  lemma {:induction false} RemoveByNameKeepsOthers(subscribers: seq<Subscriber>, name: string, s: Subscriber)
    requires s.userName != name
    ensures multiset(RemoveByName(subscribers, name))[s] == multiset(subscribers)[s]
    decreases |subscribers|
  {
    if subscribers != [] {
      assert subscribers == [subscribers[0]] + subscribers[1..];
      RemoveByNameKeepsOthers(subscribers[1..], name, s);
    }
  }

  class ChatGroup {
    const groupName: string
    var subscribers: seq<Subscriber>

    constructor (groupName: string)
      ensures this.groupName == groupName && subscribers == []
    {
      this.groupName := groupName;
      subscribers := [];
    }

    method Subscribe(subscriber: Subscriber)
      modifies this
      ensures subscribers == old(subscribers) + [subscriber]
    {
      subscribers := subscribers + [subscriber];
    }

    method Unsubscribe(subscriber: Subscriber)
      modifies this
      ensures subscribers == RemoveByName(old(subscribers), subscriber.userName)
    {
      subscribers := RemoveByName(subscribers, subscriber.userName);
    }

    /** Notifies every subscriber in list order; returns the notifications. */
    method Publish(message: string) returns (deliveries: seq<Delivery>)
      ensures deliveries == Deliveries(groupName, subscribers, message)
    {
      deliveries := [];
      for i := 0 to |subscribers|
        invariant deliveries == Deliveries(groupName, subscribers[..i], message)
      {
        deliveries := deliveries + [Delivery(subscribers[i], groupName, message)];
      }
      assert subscribers[..|subscribers|] == subscribers;
    }
  }

  /** A subscribe call followed by unsubscribing that name is the same as
      unsubscribing it from the earlier list. */
  lemma SubscribeThenUnsubscribe(subscribers: seq<Subscriber>, s: Subscriber)
    ensures RemoveByName(subscribers + [s], s.userName) == RemoveByName(subscribers, s.userName)
  {
    RemoveByNameAppend(subscribers, [s], s.userName);
    RemoveByNameSingle(s, s.userName);
  }

  // ---------------------------------------------------------------------
  // The command
  // ---------------------------------------------------------------------

  class SendMessageCommand {
    const group: ChatGroup
    const message: string

    constructor (group: ChatGroup, message: string)
      ensures this.group == group && this.message == message
    {
      this.group := group;
      this.message := message;
    }

    method Execute() returns (deliveries: seq<Delivery>)
      ensures deliveries == Deliveries(group.groupName, group.subscribers, message)
    {
      deliveries := group.Publish(message);
    }
  }

  // ---------------------------------------------------------------------
  // std::to_string for the non-negative minimum length
  // ---------------------------------------------------------------------

  function DigitChar(d: nat): char
    requires d < 10
  {
    "0123456789"[d]
  }

  predicate IsDigit(c: char)
  {
    '0' <= c <= '9'
  }

  function DigitValue(c: char): nat
  {
    if IsDigit(c) then c as nat - '0' as nat else 0
  }

  /** Decimal digits of n, most significant first, without leading zeros. */
  function NatToString(n: nat): (s: string)
    ensures |s| > 0
    ensures forall i :: 0 <= i < |s| ==> IsDigit(s[i])
    ensures s[0] == '0' <==> n == 0
    decreases n
  {
    if n < 10 then [DigitChar(n)] else NatToString(n / 10) + [DigitChar(n % 10)]
  }

  /** Reads a string of decimal digits back as a number. */
  function ParseDecimal(s: string): nat
  {
    if s == [] then 0 else 10 * ParseDecimal(s[..|s| - 1]) + DigitValue(s[|s| - 1])
  }

  /** The digits NatToString writes denote n again. */
  lemma {:induction false} ParseNatToString(n: nat)
    ensures ParseDecimal(NatToString(n)) == n
    decreases n
  {
    var s := NatToString(n);
    if n < 10 {
      assert s[..0] == [];
    } else {
      ParseNatToString(n / 10);
      assert s[..|s| - 1] == NatToString(n / 10);
    }
  }

  // ---------------------------------------------------------------------
  // The chain of responsibility
  // ---------------------------------------------------------------------

  /** Which handler class an object is. */
  datatype HandlerKind =
    | BaseHandler
    | NotEmptyValidator
    | LengthValidator(minLength: nat)
    | PostMessageHandler

  /** The string a handle call returns and whether the command was executed. */
  datatype Outcome = Outcome(response: string, executed: bool)

  const EmptyError: string := "Please enter a value"
  const LengthErrorPrefix: string := "Please enter a value longer than "
  /** What the chain main builds answers to a one-character message. */
  const ShortError: string := "Please enter a value longer than 2"
  const Sent: string := "Message Sent!"
  const EndOfChain: string := "Success!"

  /** What handle does along a null-terminated chain of handler kinds;
      the empty chain stands for BaseHandler::handle's missing next. */
  function Respond(kinds: seq<HandlerKind>, message: string): (r: Outcome)
    ensures r.executed ==> r.response == Sent && PostMessageHandler in kinds
    decreases |kinds|
  {
    if kinds == [] then Outcome(EndOfChain, false)
    else
      match kinds[0]
      case BaseHandler => Respond(kinds[1..], message)
      case NotEmptyValidator =>
        if message == "" then Outcome(EmptyError, false) else Respond(kinds[1..], message)
      case LengthValidator(n) =>
        if |message| < n then Outcome(LengthErrorPrefix + NatToString(n), false)
        else Respond(kinds[1..], message)
      case PostMessageHandler => Outcome(Sent, true)
  }

  /** A handler lets the message through to the next one. */
  predicate Passes(kind: HandlerKind, message: string)
  {
    match kind
    case NotEmptyValidator => message != ""
    case LengthValidator(n) => |message| >= n
    case _ => true
  }

  /** The command is executed exactly when some PostMessageHandler is
      reached, that is, when every handler before it lets the message pass. */
  lemma {:induction false} ExecutedIffReached(kinds: seq<HandlerKind>, message: string)
    ensures Respond(kinds, message).executed <==>
            exists i :: 0 <= i < |kinds| && kinds[i] == PostMessageHandler &&
                        forall j :: 0 <= j < i ==> Passes(kinds[j], message)
    decreases |kinds|
  {
    if kinds != [] {
      ExecutedIffReached(kinds[1..], message);
      if Respond(kinds, message).executed {
        if kinds[0] != PostMessageHandler {
          var i :| 0 <= i < |kinds| - 1 && kinds[1..][i] == PostMessageHandler &&
                   forall j :: 0 <= j < i ==> Passes(kinds[1..][j], message);
          assert forall j :: 0 <= j < i + 1 ==> Passes(kinds[j], message) by {
            forall j | 0 <= j < i + 1 ensures Passes(kinds[j], message) {
              if j > 0 { assert kinds[j] == kinds[1..][j - 1]; }
            }
          }
          assert kinds[i + 1] == PostMessageHandler;
        }
      } else {
        forall i | 0 <= i < |kinds| && kinds[i] == PostMessageHandler
          ensures !forall j :: 0 <= j < i ==> Passes(kinds[j], message)
        {
          if i > 0 && Passes(kinds[0], message) {
            assert kinds[1..][i - 1] == PostMessageHandler;
            assert !forall j :: 0 <= j < i - 1 ==> Passes(kinds[1..][j], message);
            var j :| 0 <= j < i - 1 && !Passes(kinds[1..][j], message);
            assert !Passes(kinds[j + 1], message);
          }
        }
      }
    }
  }

  /** The response is "Message Sent!" exactly when the command was executed. */
  lemma {:induction false} SentIffExecuted(kinds: seq<HandlerKind>, message: string)
    ensures Respond(kinds, message).response == Sent <==> Respond(kinds, message).executed
    decreases |kinds|
  {
    if kinds != [] {
      SentIffExecuted(kinds[1..], message);
      match kinds[0]
      case LengthValidator(n) =>
        if |message| < n {
          assert (LengthErrorPrefix + NatToString(n))[0] == 'P';
        }
      case _ =>
    }
  }

  /** The chain the program builds: Base -> NotEmpty -> Length(2) -> PostMessage. */
  const SendMessageChain: seq<HandlerKind> :=
    [BaseHandler, NotEmptyValidator, LengthValidator(2), PostMessageHandler]

  /** Over that chain a message is sent exactly when it has two or more characters. */
  lemma SendMessageChainSendsIff(message: string)
    ensures Respond(SendMessageChain, message).executed <==> |message| >= 2
    ensures message == "" ==> Respond(SendMessageChain, message) == Outcome(EmptyError, false)
    ensures |message| == 1 ==> Respond(SendMessageChain, message) == Outcome(ShortError, false)
    ensures |message| >= 2 ==> Respond(SendMessageChain, message) == Outcome(Sent, true)
  {
    var afterBase := SendMessageChain[1..];
    var afterEmpty := afterBase[1..];
    var last := afterEmpty[1..];
    assert afterBase[0] == NotEmptyValidator && afterEmpty[0] == LengthValidator(2);
    assert last[0] == PostMessageHandler;
    assert Respond(SendMessageChain, message) == Respond(afterBase, message);
    if message == "" {
      assert Respond(afterBase, message) == Outcome(EmptyError, false);
    } else if |message| < 2 {
      LengthErrorForTwo();
      assert Respond(afterEmpty, message) == Outcome(LengthErrorPrefix + NatToString(2), false);
      assert Respond(afterBase, message) == Respond(afterEmpty, message);
    } else {
      assert Respond(afterEmpty, message) == Respond(last, message);
      assert Respond(afterBase, message) == Respond(afterEmpty, message);
    }
  }

  /** The LengthValidator(2) message, spelled out. */
  lemma LengthErrorForTwo()
    ensures LengthErrorPrefix + NatToString(2) == ShortError
  {
    assert NatToString(2) == "2";
  }

  /** The kinds along a chain of handler objects. */
  function Kinds(chain: seq<Handler>): (ks: seq<HandlerKind>)
    ensures |ks| == |chain|
    ensures forall i :: 0 <= i < |chain| ==> ks[i] == chain[i].kind
  {
    if chain == [] then [] else [chain[0].kind] + Kinds(chain[1..])
  }

  /** `chain` lists the handlers reached from chain[0] by following next,
      ending in one whose next is null. */
  ghost predicate IsChain(chain: seq<Handler>)
    reads chain
  {
    |chain| > 0 &&
    (forall i :: 0 <= i < |chain| - 1 ==> chain[i].next == chain[i + 1]) &&
    chain[|chain| - 1].next == null
  }

  /** A handler object; its class is `kind`. */
  class Handler {
    const kind: HandlerKind
    var next: Handler?

    constructor (kind: HandlerKind)
      ensures this.kind == kind && next == null
    {
      this.kind := kind;
      next := null;
    }

    /** Stores the next handler and returns it, so calls can be chained. */
    method SetNext(nextValidator: Handler) returns (r: Handler)
      modifies this
      ensures next == nextValidator && r == nextValidator
    {
      next := nextValidator;
      r := nextValidator;
    }

    /** Handles `command` along `chain`, which starts at this handler; the
        deliveries are those of the one execute, if any. */
    method Handle(command: SendMessageCommand, ghost chain: seq<Handler>)
      returns (response: string, deliveries: seq<Delivery>)
      requires IsChain(chain) && chain[0] == this
      ensures response == Respond(Kinds(chain), command.message).response
      ensures deliveries ==
                if Respond(Kinds(chain), command.message).executed
                then Deliveries(command.group.groupName, command.group.subscribers, command.message)
                else []
      decreases |chain|
    {
      var message := command.message;
      assert Kinds(chain)[1..] == Kinds(chain[1..]);
      match kind {
        case PostMessageHandler =>
          deliveries := command.Execute();
          response := Sent;
        case NotEmptyValidator =>
          if message == "" {
            response, deliveries := EmptyError, [];
          } else {
            response, deliveries := Forward(command, chain);
          }
        case LengthValidator(n) =>
          if |message| < n {
            response, deliveries := LengthErrorPrefix + NatToString(n), [];
          } else {
            response, deliveries := Forward(command, chain);
          }
        case BaseHandler =>
          response, deliveries := Forward(command, chain);
      }
    }

    /** BaseHandler::handle: pass to the next handler, or succeed at the end. */
    method Forward(command: SendMessageCommand, ghost chain: seq<Handler>)
      returns (response: string, deliveries: seq<Delivery>)
      requires IsChain(chain) && chain[0] == this
      ensures response == Respond(Kinds(chain[1..]), command.message).response
      ensures deliveries ==
                if Respond(Kinds(chain[1..]), command.message).executed
                then Deliveries(command.group.groupName, command.group.subscribers, command.message)
                else []
      decreases |chain|, 0
    {
      if next != null {
        assert IsChain(chain[1..]);
        response, deliveries := next.Handle(command, chain[1..]);
      } else {
        assert chain[1..] == [];
        response, deliveries := EndOfChain, [];
      }
    }
  }

  // ---------------------------------------------------------------------
  // The program's scenario, driven through the objects
  // ---------------------------------------------------------------------

  /** The chain built in the program's main by chained setNext calls. */
  method BuildSendMessageChain() returns (head: Handler, ghost chain: seq<Handler>)
    ensures fresh(head) && IsChain(chain) && chain[0] == head
    ensures Kinds(chain) == SendMessageChain
  {
    head := new Handler(BaseHandler);
    var notEmpty := new Handler(NotEmptyValidator);
    var length := new Handler(LengthValidator(2));
    var post := new Handler(PostMessageHandler);
    var h := head.SetNext(notEmpty);
    h := h.SetNext(length);
    h := h.SetNext(post);
    chain := [head, notEmpty, length, post];
  }

  // The users, groups and messages of the program's main.
  const Jim := ChatUser("Jim")
  const Barb := ChatUser("Barb")
  const Hannah := ChatUser("Hannah")
  const Gardening: string := "Gardening Group"
  const DogLovers: string := "Dog-lovers Group"
  const HelloGroup1: string := "Hello everyone in group 1!"
  const HelloGroup2: string := "Hello everyone in group 2!"

  /** The two groups of the program's main and their subscriptions. */
  method BuildGroups() returns (group1: ChatGroup, group2: ChatGroup)
    ensures fresh(group1) && fresh(group2)
    ensures group1.groupName == Gardening && group1.subscribers == [Jim, Barb]
    ensures group2.groupName == DogLovers && group2.subscribers == [Barb, Hannah]
  {
    group1 := new ChatGroup(Gardening);
    group2 := new ChatGroup(DogLovers);
    group1.Subscribe(Jim);
    group1.Subscribe(Barb);
    group2.Subscribe(Barb);
    group2.Subscribe(Hannah);
  }

  /** Passes one command down the chain main builds: what it answers and
      what it delivers depends only on the message's length. */
  method SendThrough(head: Handler, ghost chain: seq<Handler>, command: SendMessageCommand)
    returns (response: string, deliveries: seq<Delivery>)
    requires IsChain(chain) && chain[0] == head && Kinds(chain) == SendMessageChain
    ensures command.message == "" ==> response == EmptyError && deliveries == []
    ensures |command.message| == 1 ==> response == ShortError && deliveries == []
    ensures |command.message| >= 2 ==> response == Sent
    ensures |command.message| >= 2 ==>
              deliveries == Deliveries(command.group.groupName, command.group.subscribers, command.message)
  {
    SendMessageChainSendsIff(command.message);
    response, deliveries := head.Handle(command, chain);
  }

  /** The program's main: two groups, the validating chain, four commands. */
  method SendMessageScenario() returns (responses: seq<string>, sent: seq<Delivery>)
    ensures responses == [EmptyError, ShortError, Sent, Sent]
    ensures sent == [
      Delivery(Jim, Gardening, HelloGroup1), Delivery(Barb, Gardening, HelloGroup1),
      Delivery(Barb, DogLovers, HelloGroup2), Delivery(Hannah, DogLovers, HelloGroup2)]
  {
    var group1, group2 := BuildGroups();
    var chainHead, chain := BuildSendMessageChain();

    var emptyMessage := new SendMessageCommand(group1, "");
    var tooShortMessage := new SendMessageCommand(group1, "H");
    var sayHelloToGroup1 := new SendMessageCommand(group1, HelloGroup1);
    var sayHelloToGroup2 := new SendMessageCommand(group2, HelloGroup2);

    var r1, d1 := SendThrough(chainHead, chain, emptyMessage);
    var r2, d2 := SendThrough(chainHead, chain, tooShortMessage);
    var r3, d3 := SendThrough(chainHead, chain, sayHelloToGroup1);
    var r4, d4 := SendThrough(chainHead, chain, sayHelloToGroup2);
    assert d3 == [d3[0], d3[1]] && d4 == [d4[0], d4[1]];
    responses := [r1, r2, r3, r4];
    sent := d1 + d2 + d3 + d4;
  }
}
