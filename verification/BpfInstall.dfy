/** Installing a filter program on every CPU. */
module BpfInstall {
  import opened Common
  import opened BpfText

  /** A compiled copy of a program. */
  class SkFilter {
    const insns: seq<Instr>

    constructor (insns: seq<Instr>)
      ensures this.insns == insns
    {
      this.insns := insns;
    }
  }

  class FilterBlock {
    /** Each CPU's filter, if it has one. */
    const filters: array<SkFilter?>
    /** Filters given back to the allocator. */
    var freed: multiset<SkFilter>
    ghost var built: set<SkFilter>

    /** Every filter ever allocated is either installed on one CPU or was freed once, never both. */
    ghost predicate Valid()
      reads this, filters
    {
      && (forall c | 0 <= c < filters.Length && filters[c] != null :: filters[c] in built)
      && (forall c, d | 0 <= c < d < filters.Length && filters[c] != null :: filters[c] != filters[d])
      && (forall f | f in freed :: f in built)
      && (forall f | f in built :: freed[f] == if f in filters[..] then 0 else 1)
    }

    constructor (cpus: nat)
      ensures Valid() && fresh(filters) && filters.Length == cpus && freed == multiset{} && built == {}
      ensures forall c | 0 <= c < cpus :: filters[c] == null
    {
      filters := new SkFilter?[cpus](_ => null);
      freed, built := multiset{}, {};
    }

    /** Put a filter, or none, on a CPU and free what was there. */
    method Swap(cpu: nat, sf: SkFilter?)
      requires cpu < filters.Length
      requires forall c, d | 0 <= c < d < filters.Length && filters[c] != null :: filters[c] != filters[d]
      requires forall c | 0 <= c < filters.Length && filters[c] != null :: filters[c] in built
      requires sf != null ==> sf !in filters[..] && sf in built && freed[sf] == 0
      requires forall f | f in freed :: f in built
      requires forall f | f in built && f != sf :: freed[f] == if f in filters[..] then 0 else 1
      modifies filters, `freed
      ensures Valid() && filters[..] == old(filters[..])[cpu := sf]
    {
      var sfold := filters[cpu];
      filters[cpu] := sf;
      assert filters[..] == old(filters[..])[cpu := sf];
      if sfold != null { freed := freed + multiset{sfold}; }
      forall f | f in built ensures freed[f] == if f in filters[..] then 0 else 1 {
        InAfterUpdate(old(filters[..]), cpu, sf, f);
      }
    }

    /** Allocate a copy of the program for a CPU, check it, and put it in place. */
    method InitFilter(cpu: nat, fprog: seq<Instr>, memory: bool, verdict: int) returns (err: int)
      requires Valid() && cpu < filters.Length
      modifies this, filters
      ensures Valid()
      ensures err == if !memory then -ENOMEM else verdict
      ensures err == 0 ==>
                && filters[cpu] != null && filters[cpu].insns == fprog
                && filters[..] == old(filters[..])[cpu := filters[cpu]]
      ensures err != 0 ==> filters[..] == old(filters[..])
    {
      if !memory { return -ENOMEM; }
      var sf := new SkFilter(fprog);
      built := built + {sf};
      if verdict != 0 {
        freed := freed + multiset{sf};
        return verdict;
      }
      Swap(cpu, sf);
      err := 0;
    }

    method CleanupFilter(cpu: nat)
      requires Valid() && cpu < filters.Length
      modifies filters, `freed
      ensures Valid() && filters[..] == old(filters[..])[cpu := null]
    {
      Swap(cpu, null);
    }

    /** Install on one CPU after the other; stop at the first that fails. */
    method InitFilterCpus(fprog: seq<Instr>, memory: seq<bool>, verdict: int) returns (err: int)
      requires Valid() && |memory| == filters.Length
      modifies this, filters
      ensures Valid()
      ensures err == 0 ==> forall c | 0 <= c < filters.Length :: filters[c] != null && filters[c].insns == fprog
      ensures err == 0 <==> filters.Length == 0 || (verdict == 0 && false !in memory)
    {
      err := 0;
      var cpu := 0;
      while cpu < filters.Length
        invariant 0 <= cpu <= filters.Length && Valid() && err == 0
        invariant forall c | 0 <= c < cpu :: filters[c] != null && filters[c].insns == fprog
        invariant (forall c | 0 <= c < cpu :: memory[c]) && (cpu > 0 ==> verdict == 0)
      {
        ghost var before := filters[..];
        err := InitFilter(cpu, fprog, memory[cpu], verdict);
        assert memory[cpu] in memory;
        if err != 0 { break; }
        assert forall c | 0 <= c < cpu :: filters[..][c] == before[c];
        cpu := cpu + 1;
      }
    }

    method CleanupFilterCpus()
      requires Valid()
      modifies filters, `freed
      ensures Valid() && forall c | 0 <= c < filters.Length :: filters[c] == null
    {
      for cpu := 0 to filters.Length
        invariant Valid()
        invariant forall c | 0 <= c < cpu :: filters[c] == null
      {
        ghost var before := filters[..];
        CleanupFilter(cpu);
        assert forall c | 0 <= c < cpu :: filters[..][c] == before[c];
      }
    }

    /** A write of a parsed program: away with the old filters, on with the new, and away with those
        again if any CPU failed. */
    method Write(fprog: seq<Instr>, memory: seq<bool>, verdict: int) returns (err: int)
      requires Valid() && |memory| == filters.Length
      modifies this, filters
      ensures Valid()
      ensures err == 0 <==> filters.Length == 0 || (verdict == 0 && false !in memory)
      ensures err == 0 ==> forall c | 0 <= c < filters.Length :: filters[c] != null && filters[c].insns == fprog
      ensures err != 0 ==> forall c | 0 <= c < filters.Length :: filters[c] == null
    {
      CleanupFilterCpus();
      err := InitFilterCpus(fprog, memory, verdict);
      if err != 0 { CleanupFilterCpus(); }
    }
  }

  lemma InAfterUpdate<T>(s: seq<T>, i: nat, x: T, y: T)
    requires i < |s| && forall c, d | 0 <= c < d < |s| && s[c] == y :: s[c] != s[d]
    ensures y in s[i := x] <==> y == x || (y in s && s[i] != y)
  {
    if y in s && s[i] != y {
      var k :| 0 <= k < |s| && s[k] == y;
      assert s[i := x][k] == y;
    }
    assert s[i := x][i] == x;
  }
}
