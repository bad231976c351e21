/** The shared system-controller register block, reached through the kernel's
    register-map abstraction. The only access the driver makes is
    `regmap_update_bits(map, reg, mask, val)`, an atomic masked
    read-modify-write; locking and bus access are below this model. */
module RegisterMap {
  import opened Bits

  /** Register contents by byte offset into the block. */
  type Regs = map<int, bv32>

  /** One event the system controller observes from the driver: a masked
      write, or a busy-wait of `ms` milliseconds between writes. */
  datatype Op = Write(reg: int, mask: bv32, val: bv32) | Delay(ms: nat)

  /** The effect of one event on the registers. An offset outside the block
      is left alone (the driver never writes one; see `Regmap.UpdateBits`). */
  function Step(r: Regs, op: Op): Regs {
    match op
    case Write(reg, mask, val) => if reg in r then r[reg := Update(r[reg], mask, val)] else r
    case Delay(_) => r
  }

  /** The effect of a sequence of events, applied in order. */
  function Apply(r: Regs, ops: seq<Op>): Regs
    decreases |ops|
  {
    if ops == [] then r else Apply(Step(r, ops[0]), ops[1..])
  }

  /** Events change register contents, never which registers exist. */
  lemma {:induction false} ApplyKeys(r: Regs, ops: seq<Op>)
    ensures Apply(r, ops).Keys == r.Keys
    decreases |ops|
  {
    if ops != [] {
      ApplyKeys(Step(r, ops[0]), ops[1..]);
    }
  }

  /** Running `a` then `b` is running `a + b`. */
  lemma {:induction false} ApplyAppend(r: Regs, a: seq<Op>, b: seq<Op>)
    ensures Apply(r, a + b) == Apply(Apply(r, a), b)
    decreases |a|
  {
    if a == [] {
      assert a + b == b;
    } else {
      assert (a + b)[0] == a[0];
      assert (a + b)[1..] == a[1..] + b;
      ApplyAppend(Step(r, a[0]), a[1..], b);
    }
  }

  /** Running one more event after `ops`. */
  lemma ApplySnoc(r: Regs, ops: seq<Op>, op: Op)
    ensures Apply(r, ops + [op]) == Step(Apply(r, ops), op)
  {
    ApplyAppend(r, ops, [op]);
    assert [op][1..] == [];
  }

  /** Appending two runs of events to a timeline appends their
      concatenation. */
  lemma AppendAssoc(t: seq<Op>, a: seq<Op>, b: seq<Op>)
    ensures t + a + b == t + (a + b)
  {
  }

  /** A single event. */
  lemma ApplyOne(r: Regs, op: Op)
    ensures Apply(r, [op]) == Step(r, op)
  {
    assert [op][1..] == [];
  }

  /** Two events, in order. */
  lemma ApplyTwo(r: Regs, a: Op, b: Op)
    ensures Apply(r, [a, b]) == Step(Step(r, a), b)
  {
    assert [a, b] == [a] + [b];
    ApplyAppend(r, [a], [b]);
    ApplyOne(r, a);
    ApplyOne(Step(r, a), b);
  }

  /** The register map handle the driver holds (`struct regmap *`). */
  class Regmap {
    /** Current register contents; the keys are the offsets of the block. */
    var regs: Regs
    /** The contents before the driver's first event. */
    ghost var base: Regs
    /** Everything the controller has observed from the driver, in order. */
    ghost var timeline: seq<Op>

    /** The contents are those the observed events produce. */
    ghost predicate Valid()
      reads this
    {
      regs == Apply(base, timeline)
    }

    constructor (init: Regs)
      ensures Valid()
      ensures regs == init && base == init && timeline == []
    {
      regs := init;
      base := init;
      timeline := [];
    }

    /** `regmap_update_bits`: atomically replace the bits of `mask` in
        register `reg` with those of `val`. The offset must lie in the block;
        every offset this driver uses does. */
    method UpdateBits(reg: int, mask: bv32, val: bv32) returns (ret: int)
      requires Valid() && reg in regs
      modifies this
      ensures Valid() && base == old(base)
      ensures timeline == old(timeline) + [Write(reg, mask, val)]
      ensures regs.Keys == old(regs).Keys
      ensures ret == 0
    {
      ApplySnoc(base, timeline, Write(reg, mask, val));
      regs := regs[reg := Update(regs[reg], mask, val)];
      timeline := timeline + [Write(reg, mask, val)];
      ret := 0;
    }
  }
}
