/** Bounded per-PID mailboxes (gcos/ipc/message_bus.py). */
module MessageBuses {
  import opened Basics

  datatype Message = Message(sender: nat, content: string)

  type Boxes = map<nat, seq<Message>>

  function Box(boxes: Boxes, pid: nat): seq<Message> {
    if pid in boxes then boxes[pid] else []
  }

  /** A queue of size 0 or less has no bound. */
  predicate HasRoom(cap: int, n: nat) {
    cap <= 0 || n < cap
  }

  class MessageBus {
    const cap: int
    var boxes: Boxes

    /** Every mailbox is within the bound, if there is one. */
    ghost predicate Valid()
      reads this
    {
      cap > 0 ==> forall pid :: pid in boxes ==> |boxes[pid]| <= cap
    }

    constructor (cap: int)
      ensures Valid() && this.cap == cap && boxes == map[]
    {
      this.cap, boxes := cap, map[];
    }

    /** Non-blocking: a full mailbox drops the message. Nobody else's mailbox changes. */
    method Send(target: nat, m: Message) returns (ok: bool)
      requires Valid()
      modifies this`boxes
      ensures Valid()
      ensures ok <==> HasRoom(cap, |Box(old(boxes), target)|)
      ensures Box(boxes, target) == Box(old(boxes), target) + if ok then [m] else []
      ensures forall pid: nat :: pid != target ==> Box(boxes, pid) == Box(old(boxes), pid)
    {
      var box := Box(boxes, target);
      ok := HasRoom(cap, |box|);
      boxes := boxes[target := if ok then box + [m] else box];
    }

    /** The oldest message, or None exactly when there is none. */
    method Receive(pid: nat) returns (r: Option<Message>)
      requires Valid()
      modifies this`boxes
      ensures Valid()
      ensures Box(old(boxes), pid) == (if r.Some? then [r.value] else []) + Box(boxes, pid)
      ensures r.None? ==> Box(old(boxes), pid) == []
      ensures forall other: nat :: other != pid ==> Box(boxes, other) == Box(old(boxes), other)
    {
      var box := Box(boxes, pid);
      if box == [] {
        boxes := boxes[pid := []];
        return None;
      }
      r := Some(box[0]);
      boxes := boxes[pid := box[1..]];
    }

    method DropMailbox(pid: nat)
      requires Valid()
      modifies this`boxes
      ensures Valid() && Box(boxes, pid) == []
      ensures forall other: nat :: other != pid ==> Box(boxes, other) == Box(old(boxes), other)
    {
      boxes := boxes - {pid};
    }
  }
}
