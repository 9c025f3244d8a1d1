/** The event stream and its consumer group, as the stream client uses them. */
module EventStream {
  import opened Prelude
  import opened EventCodec

  /** The server's side. Entries are numbered by position. */
  class StreamClient {
    var entries: seq<Values>
    var grouped: bool
    var delivered: nat
    var pending: set<nat>

    constructor ()
      ensures entries == [] && !grouped && delivered == 0 && pending == {}
    {
      entries, grouped, delivered, pending := [], false, 0, {};
    }

    /** A new group starts before the first entry; BUSYGROUP, for one that exists, is no error. */
    method CreateGroup(fails: bool) returns (ok: bool)
      modifies this`grouped, this`delivered, this`pending
      ensures ok <==> !fails
      ensures grouped <==> old(grouped) || ok
      ensures old(grouped) || fails ==> delivered == old(delivered) && pending == old(pending)
      ensures !old(grouped) && ok ==> delivered == 0 && pending == {}
    {
      ok := !fails;
      if ok && !grouped {
        grouped, delivered, pending := true, 0, {};
      }
    }

    method Add(values: Values) returns (id: nat)
      modifies this`entries
      ensures entries == old(entries) + [values] && id == |old(entries)|
    {
      id := |entries|;
      entries := entries + [values];
    }

    /** Up to `count` entries never delivered before; they become pending even if the reply is lost. */
    method ReadGroup(count: nat) returns (ids: seq<nat>)
      requires grouped && delivered <= |entries|
      modifies this`delivered, this`pending
      ensures |ids| == Min(count, |entries| - old(delivered))
      ensures forall i :: 0 <= i < |ids| ==> ids[i] == old(delivered) + i
      ensures delivered == old(delivered) + |ids|
      ensures pending == old(pending) + (set i | i in ids)
    {
      var first := delivered;
      var n := Min(count, |entries| - first);
      ids := seq(n, i => first + i);
      delivered := delivered + n;
      pending := pending + (set i | i in ids);
    }

    method AddAll(arrivals: seq<Values>)
      modifies this`entries
      ensures entries == old(entries) + arrivals
    {
      for n := 0 to |arrivals|
        invariant entries == old(entries) + arrivals[..n]
      {
        var _ := Add(arrivals[n]);
        assert arrivals[..n + 1] == arrivals[..n] + [arrivals[n]];
      }
      assert arrivals[..|arrivals|] == arrivals;
    }

    method Ack(id: nat)
      modifies this`pending
      ensures pending == old(pending) - {id}
    {
      pending := pending - {id};
    }
  }
}
