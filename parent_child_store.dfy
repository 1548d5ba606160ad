/**
 * The parent-child store: the data the parent hands its child, and the
 * log of messages passed between them. `Date.now()` is read twice per
 * message (once for the id, once for the timestamp); both readings are parameters.
 */
module ParentChildStore {
  import opened Wrappers
  import opened Strings

  datatype Sender = Parent | Child
  datatype ChildData = ChildData(name: string, age: int, message: string)
  /** A `Partial<ChildData>`. */
  datatype ChildDataPatch = ChildDataPatch(name: Option<string>, age: Option<int>, message: Option<string>)
  datatype Message = Message(id: string, from: Sender, message: string, timestamp: int)

  const InitialChildData := ChildData("John", 30, "这是来自父组件的消息")

  /** `{ ...childData, ...patch }`: the fields the patch gives replace the old ones, the others stay. */
  function MergeChildData(d: ChildData, p: ChildDataPatch): (r: ChildData)
    ensures r.name == if p.name.Some? then p.name.value else d.name
    ensures r.age == if p.age.Some? then p.age.value else d.age
    ensures r.message == if p.message.Some? then p.message.value else d.message
  {
    ChildData(p.name.GetOr(d.name), p.age.GetOr(d.age), p.message.GetOr(d.message))
  }

  /** Applying the same patch twice is applying it once. */
  lemma MergeIdempotent(d: ChildData, p: ChildDataPatch)
    ensures MergeChildData(MergeChildData(d, p), p) == MergeChildData(d, p)
  {
  }

  /** The message `addMessage` builds: its id is the first clock reading in decimal. */
  function NewMessage(from: Sender, message: string, idTime: int, timestamp: int): (m: Message)
    ensures m.from == from && m.message == message && m.timestamp == timestamp
    ensures m.id == IntToString(idTime)
  {
    Message(IntToString(idTime), from, message, timestamp)
  }

  /** Two messages get the same id exactly when their id readings are the same millisecond. */
  lemma MessageIdsCollideOnlyWithinOneMillisecond(a: int, b: int, from: Sender, text: string, t: int)
    ensures NewMessage(from, text, a, t).id == NewMessage(from, text, b, t).id <==> a == b
  {
    if a != b {
      IntToStringInjective(a, b);
    }
  }

  /** `getLatestMessage`: the last message, or nothing when the log is empty. */
  function Latest(history: seq<Message>): (m: Option<Message>)
    ensures m.None? <==> |history| == 0
    ensures m.Some? ==> m.value == history[|history| - 1]
  {
    if |history| > 0 then Some(history[|history| - 1]) else None
  }

  class Store {
    var childData: ChildData
    var messageHistory: seq<Message>

    constructor ()
      ensures childData == InitialChildData && messageHistory == []
    {
      childData := InitialChildData;
      messageHistory := [];
    }

    method UpdateChildData(patch: ChildDataPatch)
      modifies this`childData
      ensures childData == MergeChildData(old(childData), patch)
    {
      childData := MergeChildData(childData, patch);
    }

    /** `addMessage`: exactly one message is appended; earlier ones are untouched, and it becomes the latest. */
    method AddMessage(from: Sender, message: string, idTime: int, timestamp: int)
      modifies this`messageHistory
      ensures messageHistory == old(messageHistory) + [NewMessage(from, message, idTime, timestamp)]
      ensures GetLatestMessage() == Some(NewMessage(from, message, idTime, timestamp))
      ensures GetMessageCount() == old(GetMessageCount()) + 1
    {
      messageHistory := messageHistory + [NewMessage(from, message, idTime, timestamp)];
    }

    method ClearHistory()
      modifies this`messageHistory
      ensures messageHistory == [] && GetLatestMessage() == None
    {
      messageHistory := [];
    }

    function GetMessageCount(): (n: nat)
      reads this
      ensures n == |messageHistory|
    {
      |messageHistory|
    }

    function GetLatestMessage(): (m: Option<Message>)
      reads this
      ensures m.None? <==> |messageHistory| == 0
      ensures m.Some? ==> m.value == messageHistory[|messageHistory| - 1]
    {
      Latest(messageHistory)
    }
  }
}
