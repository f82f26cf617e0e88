/** Bit arithmetic of the multiplexer's port-enable register: one bit per port 0..7. */
module Mux {

  /** MuxPort of a sensor wired straight to the bus, not through the multiplexer. */
  const NO_MUX: int := -1

  /** The highest port; a larger index is taken as this one, never rejected. */
  const MAX_PORT: int := 7

  function ClampPort(muxport: int): (p: int)
    requires muxport >= 0
    ensures 0 <= p <= MAX_PORT
    ensures muxport <= MAX_PORT ==> p == muxport
    ensures muxport > MAX_PORT ==> p == MAX_PORT
  {
    if muxport > MAX_PORT then MAX_PORT else muxport
  }

  /** The bit of port p, 1 << p, written out port by port. */
  function PortMask(p: int): bv8
    requires 0 <= p <= MAX_PORT
  {
    if p == 0 then 0x01 else if p == 1 then 0x02 else if p == 2 then 0x04
    else if p == 3 then 0x08 else if p == 4 then 0x10 else if p == 5 then 0x20
    else if p == 6 then 0x40 else 0x80
  }

  /** The table is the shift. */
  lemma MaskIsShift(p: int)
    requires 0 <= p <= MAX_PORT
    ensures PortMask(p) == (1 as bv8) << p
  {
  }

  predicate PortOn(settings: bv8, p: int)
    requires 0 <= p <= MAX_PORT
  {
    settings & PortMask(p) != 0
  }

  /** The register read as eight port flags, port 0 first. */
  function Ports(settings: bv8): (flags: seq<bool>)
    ensures |flags| == 8
    ensures forall q :: 0 <= q < 8 ==> flags[q] == PortOn(settings, q)
  {
    seq(8, q requires 0 <= q < 8 => PortOn(settings, q))
  }

  /** settings | (1 << p) */
  function EnablePort(settings: bv8, p: int): (r: bv8)
    requires 0 <= p <= MAX_PORT
    ensures Ports(r) == Ports(settings)[p := true]
  {
    var r := settings | PortMask(p);
    forall q | 0 <= q < 8
      ensures PortOn(r, q) == (q == p || PortOn(settings, q))
    {
      SetBit(settings, p, q);
    }
    r
  }

  lemma SetBit(settings: bv8, p: int, q: int)
    requires 0 <= p <= MAX_PORT && 0 <= q <= MAX_PORT
    ensures PortOn(settings | PortMask(p), q) == (q == p || PortOn(settings, q))
  {
  }

  /** settings & ~(1 << p) */
  function DisablePort(settings: bv8, p: int): (r: bv8)
    requires 0 <= p <= MAX_PORT
    ensures Ports(r) == Ports(settings)[p := false]
  {
    var r := settings & !PortMask(p);
    forall q | 0 <= q < 8
      ensures PortOn(r, q) == (q != p && PortOn(settings, q))
    {
      ClearBit(settings, p, q);
    }
    r
  }

  lemma ClearBit(settings: bv8, p: int, q: int)
    requires 0 <= p <= MAX_PORT && 0 <= q <= MAX_PORT
    ensures PortOn(settings & !PortMask(p), q) == (q != p && PortOn(settings, q))
  {
    if q == p {
      assert (settings & !PortMask(p)) & PortMask(p) == 0;
    } else {
      assert PortMask(p) & PortMask(q) == 0;
      assert (settings & !PortMask(p)) & PortMask(q) == settings & PortMask(q);
    }
  }

  /** The eight flags determine the register. */
  lemma PortsDetermine(a: bv8, b: bv8)
    requires Ports(a) == Ports(b)
    ensures a == b
  {
    assert Ports(a)[0] == Ports(b)[0] && Ports(a)[1] == Ports(b)[1];
    assert Ports(a)[2] == Ports(b)[2] && Ports(a)[3] == Ports(b)[3];
    assert Ports(a)[4] == Ports(b)[4] && Ports(a)[5] == Ports(b)[5];
    assert Ports(a)[6] == Ports(b)[6] && Ports(a)[7] == Ports(b)[7];
    BitsDetermine(a, b);
  }

  lemma BitsDetermine(a: bv8, b: bv8)
    requires PortOn(a, 0) == PortOn(b, 0) && PortOn(a, 1) == PortOn(b, 1)
    requires PortOn(a, 2) == PortOn(b, 2) && PortOn(a, 3) == PortOn(b, 3)
    requires PortOn(a, 4) == PortOn(b, 4) && PortOn(a, 5) == PortOn(b, 5)
    requires PortOn(a, 6) == PortOn(b, 6) && PortOn(a, 7) == PortOn(b, 7)
    ensures a == b
  {
  }

  /** Disabling a port that was off before it was enabled restores the register. */
  lemma DisableUndoesEnable(settings: bv8, p: int)
    requires 0 <= p <= MAX_PORT
    requires !PortOn(settings, p)
    ensures DisablePort(EnablePort(settings, p), p) == settings
  {
    var r := DisablePort(EnablePort(settings, p), p);
    assert Ports(r) == Ports(settings);
    PortsDetermine(r, settings);
  }

  /** Enabling a port that was on before it was disabled restores the register. */
  lemma EnableUndoesDisable(settings: bv8, p: int)
    requires 0 <= p <= MAX_PORT
    requires PortOn(settings, p)
    ensures EnablePort(DisablePort(settings, p), p) == settings
  {
    var r := EnablePort(DisablePort(settings, p), p);
    assert Ports(r) == Ports(settings);
    PortsDetermine(r, settings);
  }

  /** Enabling twice is enabling once. */
  lemma EnableIdempotent(settings: bv8, p: int)
    requires 0 <= p <= MAX_PORT
    ensures EnablePort(EnablePort(settings, p), p) == EnablePort(settings, p)
  {
    var once := EnablePort(settings, p);
    PortsDetermine(EnablePort(once, p), once);
  }
}
