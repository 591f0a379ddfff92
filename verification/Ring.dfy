/**
 The bounded replay ring: the publish script appends one element, trims the head by both ceilings
 and keeps a byte counter, incrementally.  After any number of publishes the ring is the longest
 suffix of everything published since the counter was born that fits both ceilings, or just the
 newest element.
 */
module Ring {
  import opened Common
  import opened Element
  import Broker
  import BrokerGaps

  datatype Publication = Publication(epoch: string, raw: seq<byte>)

  /** The elements of one life of the counter: publication `i` carries seq `i + 1`. */
  function Elements(log: seq<Publication>): (r: seq<string>)
    ensures |r| == |log|
    ensures forall i :: 0 <= i < |log| ==> r[i] == Splice(log[i].epoch, i + 1, EncodeData(log[i].raw))
  {
    seq(|log|, i requires 0 <= i < |log| => Splice(log[i].epoch, i + 1, EncodeData(log[i].raw)))
  }

  function Bytes(items: seq<string>): nat {
    if items == [] then 0 else |items[0]| + Bytes(items[1..])
  }

  predicate Fits(items: seq<string>, maxEvents: nat, maxBytes: nat) {
    |items| <= maxEvents && Bytes(items) <= maxBytes
  }

  /** `k` starts the longest suffix that fits, or the newest element when not even that one fits. */
  ghost predicate Window(history: seq<string>, k: nat, maxEvents: nat, maxBytes: nat) {
    && k <= |history| && (history != [] ==> k < |history|)
    && (Fits(history[k..], maxEvents, maxBytes) || k == |history| - 1)
    && forall j :: 0 <= j < k ==> !Fits(history[j..], maxEvents, maxBytes)
  }

  lemma {:induction false} BytesAppend(items: seq<string>, x: string)
    ensures Bytes(items + [x]) == Bytes(items) + |x|
  {
    if items == [] {
      assert items + [x] == [x];
    } else {
      BytesAppend(items[1..], x);
      assert (items + [x])[1..] == items[1..] + [x];
    }
  }

  /** The window is determined by the history alone. */
  lemma WindowIsUnique(history: seq<string>, k: nat, k': nat, maxEvents: nat, maxBytes: nat)
    requires Window(history, k, maxEvents, maxBytes) && Window(history, k', maxEvents, maxBytes)
    ensures k == k'
  {}

  /** A suffix that did not fit never fits again once something is appended. */
  lemma StillDoesNotFit(history: seq<string>, x: string, k: nat, maxEvents: nat, maxBytes: nat)
    requires Window(history, k, maxEvents, maxBytes)
    ensures forall j :: 0 <= j < k ==> !Fits((history + [x])[j..], maxEvents, maxBytes)
  {
    forall j | 0 <= j < k ensures !Fits((history + [x])[j..], maxEvents, maxBytes) {
      assert (history + [x])[j..] == history[j..] + [x];
      BytesAppend(history[j..], x);
    }
  }

  /** Trimming an appended ring gives the window of the appended history. */
  lemma TrimmedIsWindow(history: seq<string>, x: string, k: nat, d: nat, maxEvents: nat, maxBytes: nat)
    requires Window(history, k, maxEvents, maxBytes)
    requires var ring := history[k..] + [x];
             && d < |ring| && (Fits(ring[d..], maxEvents, maxBytes) || d == |ring| - 1)
             && forall j :: 0 <= j < d ==> !Fits(ring[j..], maxEvents, maxBytes)
    ensures Window(history + [x], k + d, maxEvents, maxBytes)
  {
    hide Fits;
    var all := history + [x];
    var ring := history[k..] + [x];
    StillDoesNotFit(history, x, k, maxEvents, maxBytes);
    assert all[k..] == ring && ring[d..] == all[k + d..];
    forall j | k <= j < k + d ensures !Fits(all[j..], maxEvents, maxBytes) {
      assert all[j..] == ring[j - k..];
    }
  }

  class EventRing {
    const maxEvents: nat
    const maxBytes: nat
    var events: seq<string>          // the list
    var counter: nat                 // seq
    var bytes: int                   // running byte size
    ghost var log: seq<Publication>  // everything published in this life of the counter

    ghost predicate Valid()
      reads this
    {
      && maxEvents >= 1
      && counter == |log| && bytes == Bytes(events)
      && |events| <= |log|
      && events == Elements(log)[|log| - |events|..]
      && Window(Elements(log), |log| - |events|, maxEvents, maxBytes)
    }

    constructor (maxEvents: nat, maxBytes: nat)
      requires maxEvents >= 1
      ensures Valid() && log == [] && this.maxEvents == maxEvents && this.maxBytes == maxBytes
    {
      this.maxEvents, this.maxBytes := maxEvents, maxBytes;
      events, counter, bytes, log := [], 0, 0, [];
    }

    /** Restart, FLUSHDB or TTL expiry: all keys go at once. */
    method Wipe()
      requires Valid()
      modifies this
      ensures Valid() && log == [] && events == [] && counter == 0
    {
      events, counter, bytes, log := [], 0, 0, [];
    }

    /** The two head-trimming loops of the script: by event count, then by bytes, never dropping
        the newest element. */
    method Trim() returns (ghost dropped: nat)
      requires maxEvents >= 1 && events != [] && bytes == Bytes(events)
      modifies this`events, this`bytes
      ensures dropped < |old(events)| && events == old(events)[dropped..] && bytes == Bytes(events)
      ensures Fits(events, maxEvents, maxBytes) || dropped == |old(events)| - 1
      ensures forall j :: 0 <= j < dropped ==> !Fits(old(events)[j..], maxEvents, maxBytes)
    {
      dropped := 0;
      while |events| > maxEvents
        invariant dropped < |old(events)| && events == old(events)[dropped..] && bytes == Bytes(events)
        invariant forall j :: 0 <= j < dropped ==> !Fits(old(events)[j..], maxEvents, maxBytes)
      {
        bytes := bytes - |events[0]|;
        events := events[1..];
        dropped := dropped + 1;
      }
      while bytes > maxBytes && |events| > 1
        invariant dropped < |old(events)| && events == old(events)[dropped..] && bytes == Bytes(events)
        invariant |events| <= maxEvents
        invariant forall j :: 0 <= j < dropped ==> !Fits(old(events)[j..], maxEvents, maxBytes)
      {
        bytes := bytes - |events[0]|;
        events := events[1..];
        dropped := dropped + 1;
      }
    }

    /** The publish script.  `element` is also what goes out on the channel. */
    method Publish(epoch: string, raw: seq<byte>) returns (num: nat, element: string)
      requires Valid()
      modifies this
      ensures Valid() && log == old(log) + [Publication(epoch, raw)]
      ensures num == counter == |log| && element == Elements(log)[|log| - 1]
      ensures events != [] && events[|events| - 1] == element
    {
      hide Splice, EncodeData, Fits, Window;
      ghost var h, k := Elements(log), |log| - |events|;
      counter := counter + 1;
      element := Splice(epoch, counter, EncodeData(raw));
      log := log + [Publication(epoch, raw)];
      assert Elements(log) == h + [element];
      BytesAppend(events, element);
      events := events + [element];
      bytes := bytes + |element|;
      hide Bytes;
      ghost var dropped := Trim();
      TrimmedIsWindow(h, element, k, dropped, maxEvents, maxBytes);
      assert events == Elements(log)[k + dropped..];
      num := counter;
    }
  }

  // ----- what a reader finds ------------------------------------------------------------------

  /** The events of a log as the broker sees them; `kind` is the terminal-event test. */
  function View(log: seq<Publication>, kind: seq<byte> -> bool): (r: seq<Broker.Event>)
    ensures |r| == |log|
    ensures forall i :: 0 <= i < |log| ==> r[i] == Broker.Event(log[i].epoch, i + 1, log[i].raw, kind(log[i].raw))
  {
    seq(|log|, i requires 0 <= i < |log| => Broker.Event(log[i].epoch, i + 1, log[i].raw, kind(log[i].raw)))
  }

  /** Every element of the ring parses back to its publication, so a replay skips nothing. */
  lemma RingParses(log: seq<Publication>, i: nat, kind: seq<byte> -> bool)
    requires i < |log| < PLAIN_LIMIT && Plain(log[i].epoch)
    ensures var e := View(log, kind)[i];
            ParseElement(Elements(log)[i]) == RingEvent(Points(e.epoch), e.num, e.data)
  {
    ElementRoundTripIff(log[i].epoch, i + 1, log[i].raw);
  }

  /** A ring whose counter life has one epoch is exactly the sound snapshot the broker's theorems
      ask for, with the key readable or not. */
  lemma RingIsSound(log: seq<Publication>, k: nat, epoch: string, key: Option<string>, kind: seq<byte> -> bool)
    requires k <= |log| <= MAX_COUNTER && epoch != ""
    requires forall i :: 0 <= i < |log| ==> log[i].epoch == epoch
    requires key == None || key == Some(epoch)
    ensures BrokerGaps.SoundSnapshot(Broker.Snapshot(key, |log|, View(log, kind)[k..]))
  {}
}
