/** The part of sending and receiving that runs between two waits: the loop over the buffer, while the caller holds the
    mutex of the box. */
module MailboxBuffer {
  import opened Mailbox
  import opened Basics
  import opened Strings

  /** One byte on top. */
  function Store(b: Buffer, ch: char): Buffer
    requires BufferOk(b) && b.used < MAIL_CAPACITY
  {
    Buffer(b.bytes[b.used := ch], b.used + 1)
  }

  /** Undisturbed, the actions by which a sender moves a byte are one store, in whichever order it writes. */
  lemma TransferStores(b: Buffer, p: Local)
    requires BufferOk(b) && b.used < MAIL_CAPACITY && p.Sending? && p.stage.Cleared? && p.done < |p.msg|
    ensures var loaded := NextLocal(b, p, Load);
      && NextBuffer(NextBuffer(b, loaded, Move), NextLocal(b, loaded, Move), Count) == Store(b, p.msg[p.done])
      && NextBuffer(NextBuffer(b, loaded, Count), NextLocal(b, loaded, Count), Move) == Store(b, p.msg[p.done])
  {
  }

  /** Several bytes stored one after the other. */
  function StoreAll(b: Buffer, s: string): (r: Buffer)
    requires BufferOk(b) && b.used + |s| <= MAIL_CAPACITY
    ensures BufferOk(r) && r.used == b.used + |s|
    decreases |s|
  {
    if s == [] then b else Store(StoreAll(b, s[..|s| - 1]), s[|s| - 1])
  }

  lemma {:induction false} StoreAllHolds(b: Buffer, s: string)
    requires BufferOk(b) && b.used + |s| <= MAIL_CAPACITY
    ensures Held(StoreAll(b, s)) == Held(b) + s
    decreases |s|
  {
    if s == [] {
      assert Held(b) + s == Held(b);
    } else {
      var front := s[..|s| - 1];
      StoreAllHolds(b, front);
      assert Held(b) + s == (Held(b) + front) + [s[|s| - 1]];
    }
  }

  /** Taking the byte on top. */
  lemma TakesTop(b: Buffer, got: string)
    requires BufferOk(b) && 0 < b.used
    ensures var ch := b.bytes[b.used - 1];
      Held(b) + Reverse(got) == Held(b.(used := b.used - 1)) + Reverse(got + [ch])
  {
    var ch := b.bytes[b.used - 1];
    ReverseSnoc(got, ch);
    assert Held(b) == b.bytes[..b.used - 1] + [ch];
    ConcatAssoc(b.bytes[..b.used - 1], [ch], Reverse(got));
  }

  class MailBuffer {
    const buffer: array<char>
    var spaceUsed: int

    ghost predicate Valid()
      reads this, buffer
    {
      buffer.Length == MAIL_CAPACITY && 0 <= spaceUsed <= MAIL_CAPACITY
    }

    ghost function View(): (b: Buffer)
      requires Valid()
      reads this, buffer
      ensures BufferOk(b)
    {
      Buffer(buffer[..], spaceUsed)
    }

    constructor ()
      ensures Valid() && fresh(buffer) && Held(View()) == [] && forall j | 0 <= j < MAIL_CAPACITY :: buffer[j] == '0'
    {
      buffer := new char[MAIL_CAPACITY];
      spaceUsed := 0;
      new;
      for j := 0 to MAIL_CAPACITY
        invariant Valid() && spaceUsed == 0 && forall i | 0 <= i < j :: buffer[i] == '0'
      {
        buffer[j] := '0';
      }
    }

    /** Sends from where the caller is until the message is sent or the box is full. `signals` counts the signals that
        tell receivers that the box is not empty any more. */
    method SendOn(msg: array<char>, length: int, lenSent: nat) returns (sent: nat, signals: nat)
      requires Valid() && length <= msg.Length && msg != buffer && (lenSent <= length || lenSent == 0)
      modifies this`spaceUsed, buffer
      ensures Valid() && lenSent <= sent <= msg.Length
      ensures sent == if length <= lenSent then lenSent else Least(length, lenSent + MAIL_CAPACITY - old(spaceUsed))
      ensures View() == StoreAll(old(View()), msg[lenSent..sent])
      ensures Held(View()) == old(Held(View())) + msg[lenSent..sent]
      ensures signals == if old(spaceUsed) == 0 && lenSent < sent then 1 else 0
    {
      sent, signals := lenSent, 0;
      assert msg[lenSent..sent] == [];
      while sent < length
        invariant Valid() && lenSent <= sent && (sent <= length || sent == lenSent)
        invariant spaceUsed == old(spaceUsed) + (sent - lenSent)
        invariant View() == StoreAll(old(View()), msg[lenSent..sent])
        invariant signals == if old(spaceUsed) == 0 && lenSent < sent then 1 else 0
      {
        if spaceUsed < MAIL_CAPACITY {
          assert msg[lenSent..sent + 1][..sent - lenSent] == msg[lenSent..sent];
          buffer[spaceUsed] := msg[sent];
          spaceUsed := spaceUsed + 1;
          sent := sent + 1;
          if spaceUsed == 1 {
            signals := signals + 1;
          }
        } else {
          break;
        }
      }
      StoreAllHolds(old(View()), msg[lenSent..sent]);
    }

    /** Receives from where the caller is until enough bytes are taken or the box is empty; they come in the reverse
        order. `signals` counts the signals that tell senders that the box is not full any more. */
    method ReceiveOn(msg: array<char>, length: int, lenRecv: nat) returns (got: nat, signals: nat)
      requires Valid() && length <= msg.Length && msg != buffer && (lenRecv <= length || lenRecv == 0)
      modifies this`spaceUsed, msg
      ensures Valid() && lenRecv <= got <= msg.Length
      ensures got == if length <= lenRecv then lenRecv else Least(length, lenRecv + old(spaceUsed))
      ensures old(Held(View())) == Held(View()) + Reverse(msg[lenRecv..got])
      ensures msg[..lenRecv] == old(msg[..lenRecv]) && msg[got..] == old(msg[got..])
      ensures signals == if old(spaceUsed) == MAIL_CAPACITY && lenRecv < got then 1 else 0
    {
      hide Reverse, Held;
      got, signals := lenRecv, 0;
      assert msg[lenRecv..got] == [];
      while got < length
        invariant Valid() && lenRecv <= got && (got <= length || got == lenRecv)
        invariant spaceUsed == old(spaceUsed) - (got - lenRecv)
        invariant old(Held(View())) == Held(View()) + Reverse(msg[lenRecv..got])
        invariant forall j | 0 <= j < msg.Length && !(lenRecv <= j < got) :: msg[j] == old(msg[j])
        invariant signals == if old(spaceUsed) == MAIL_CAPACITY && lenRecv < got then 1 else 0
      {
        if spaceUsed > 0 {
          ghost var b, before := View(), msg[lenRecv..got];
          spaceUsed := spaceUsed - 1;
          msg[got] := buffer[spaceUsed];
          got := got + 1;
          assert msg[lenRecv..got] == before + [buffer[spaceUsed]];
          assert View() == b.(used := b.used - 1);
          TakesTop(b, before);
          if spaceUsed == MAIL_CAPACITY - 1 {
            signals := signals + 1;
          }
        } else {
          break;
        }
      }
    }
  }
}
