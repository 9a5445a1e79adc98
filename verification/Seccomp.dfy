/** A denylist compiled to a classic BPF program, and the machine that runs it.

    Models buildSeccompProgram and the list choice of RestrictSyscallsWithNetwork
    in internal/sandbox/seccomp_linux.go. The machine is the part of classic BPF
    the program uses: absolute loads, jump-if-equal, return. */
module Seccomp {
  import opened Prelude

  newtype uint8 = x: int | 0 <= x < 0x100
  newtype uint32 = x: int | 0 <= x < 0x1_0000_0000

  datatype Opcode = LdW | JeqK | RetK

  datatype Instruction = Instruction(code: Opcode, jt: uint8, jf: uint8, k: uint32)

  /** struct seccomp_data, as far as the filter looks. */
  datatype Data = Data(nr: uint32, arch: uint32)

  const NrOffset: uint32 := 0
  const ArchOffset: uint32 := 4
  const RetKillProcess: uint32 := 0x8000_0000
  const RetErrnoEperm: uint32 := 0x0005_0001
  const RetAllow: uint32 := 0x7fff_0000
  const MaxDenied := 250

  /** Runs a program from pc. None means it ran off the end or loaded a field
      that is not there, which a kernel would have refused to install. */
  function Interpret(prog: seq<Instruction>, pc: nat, acc: uint32, data: Data): Option<uint32>
    decreases |prog| - pc
  {
    if pc >= |prog| then None
    else
      var i := prog[pc];
      match i.code
      case RetK => Some(i.k)
      case LdW =>
        if i.k == 0 then Interpret(prog, pc + 1, data.nr, data)
        else if i.k == 4 then Interpret(prog, pc + 1, data.arch, data)
        else None
      case JeqK => Interpret(prog, pc + 1 + (if acc == i.k then i.jt else i.jf) as nat, acc, data)
  }

  /** Go's conversions to uint8 and uint32 keep the low-order bits. */
  function LowByte(n: nat): uint8 {
    (n % 0x100) as uint8
  }

  function LowWord(n: nat): uint32 {
    (n % 0x1_0000_0000) as uint32
  }

  function Load(offset: uint32): Instruction {
    Instruction(LdW, 0, 0, offset)
  }

  function Return(value: uint32): Instruction {
    Instruction(RetK, 0, 0, value)
  }

  /** The comparison for the i-th of n denied numbers. */
  function Compare(denied: seq<nat>, i: nat): Instruction
    requires i < |denied|
  {
    Instruction(JeqK, LowByte(|denied| - i), 0, LowWord(denied[i]))
  }

  /** The filter, laid out. */
  function Layout(arch: uint32, denied: seq<nat>): (prog: seq<Instruction>)
    ensures |prog| == |denied| + 6
  {
    [Load(ArchOffset), Instruction(JeqK, 1, 0, arch), Return(RetKillProcess), Load(NrOffset)]
    + seq(|denied|, i requires 0 <= i < |denied| => Compare(denied, i))
    + [Return(RetAllow), Return(RetErrnoEperm)]
  }

  datatype BuildError = UnknownArch | TooMany(count: nat)

  /** Assembles the filter as the program does, one comparison at a time. */
  method BuildProgram(arch: Option<uint32>, denied: seq<nat>) returns (r: Result<seq<Instruction>, BuildError>)
    ensures arch.None? ==> r == Err(UnknownArch)
    ensures arch.Some? && |denied| > 250 ==> r == Err(TooMany(|denied|))
    ensures arch.Some? && |denied| <= 250 ==> r == Ok(Layout(arch.value, denied))
  {
    if arch.None? {
      return Err(UnknownArch);
    }
    if |denied| > MaxDenied {
      return Err(TooMany(|denied|));
    }
    var n := |denied|;
    var allowIdx := 4 + n;
    var denyIdx := allowIdx + 1;
    var prog := [Load(ArchOffset), Instruction(JeqK, 1, 0, arch.value), Return(RetKillProcess), Load(NrOffset)];
    ghost var head := prog;
    for i := 0 to n
      invariant prog == head + seq(i, j requires 0 <= j < i => Compare(denied, j))
    {
      var pos := 4 + i;
      var jumpToDeny := LowByte(denyIdx - pos - 1);
      prog := prog + [Instruction(JeqK, jumpToDeny, 0, LowWord(denied[i]))];
    }
    return Ok(prog + [Return(RetAllow), Return(RetErrnoEperm)]);
  }

  // ---------------------------------------------------------------- meaning

  ghost predicate Listed(denied: seq<nat>, nr: uint32) {
    exists sc | sc in denied :: LowWord(sc) == nr
  }

  /** What the filter is for: kill, fail with EPERM, or allow, as the kernel numbers them. */
  ghost function Meaning(arch: uint32, denied: seq<nat>, data: Data): uint32 {
    if data.arch != arch then 0x8000_0000
    else if Listed(denied, data.nr) then 0x0005_0001
    else 0x7fff_0000
  }

  /** From the i-th comparison on, a listed number reaches the errno instruction
      and any other falls through to allow. */
  lemma {:induction false} ScanDecides(arch: uint32, denied: seq<nat>, i: nat, data: Data)
    requires i <= |denied| <= 255
    ensures Interpret(Layout(arch, denied), 4 + i, data.nr, data)
         == Some(if Listed(denied[i..], data.nr) then RetErrnoEperm else RetAllow)
    decreases |denied| - i
  {
    var prog, n := Layout(arch, denied), |denied|;
    assert prog[4 + n] == Return(RetAllow) && prog[5 + n] == Return(RetErrnoEperm);
    if i < n {
      assert prog[4 + i] == Compare(denied, i);
      assert 4 + i + 1 + (n - i) == 5 + n;
      assert denied[i..] == [denied[i]] + denied[i + 1..];
      ListedSplit([denied[i]], denied[i + 1..], data.nr);
      if LowWord(denied[i]) == data.nr {
        assert denied[i] in [denied[i]];
      } else {
        ScanDecides(arch, denied, i + 1, data);
      }
    }
  }

  lemma ListedSplit(a: seq<nat>, b: seq<nat>, nr: uint32)
    ensures Listed(a + b, nr) <==> Listed(a, nr) || Listed(b, nr)
  {
    assert forall sc :: sc in a + b <==> sc in a || sc in b;
  }

  lemma LayoutDecides(arch: uint32, denied: seq<nat>, data: Data)
    requires |denied| <= 255
    ensures Interpret(Layout(arch, denied), 0, 0, data) == Some(Meaning(arch, denied, data))
  {
    var prog := Layout(arch, denied);
    assert prog[0] == Load(ArchOffset) && prog[1] == Instruction(JeqK, 1, 0, arch);
    assert prog[2] == Return(RetKillProcess) && prog[3] == Load(NrOffset);
    ScanDecides(arch, denied, 0, data);
    assert denied[0..] == denied;
    assert Interpret(prog, 3, data.arch, data) == Interpret(prog, 4, data.nr, data);
    assert Interpret(prog, 1, data.arch, data) == Interpret(prog, if data.arch == arch then 3 else 2, data.arch, data);
    assert Interpret(prog, 0, 0, data) == Interpret(prog, 1, data.arch, data);
  }

  /** Every filter the builder accepts halts inside the program on every input,
      with the verdict the denylist calls for. */
  lemma FilterIsCorrect(arch: uint32, denied: seq<nat>, data: Data)
    requires |denied| <= 250
    ensures Interpret(Layout(arch, denied), 0, 0, data) == Some(Meaning(arch, denied, data))
  {
    LayoutDecides(arch, denied, data);
  }

  /** No jump is truncated: each comparison's distance fits a byte and lands on the errno
      instruction, and nothing but a comparison has a distance at all. */
  lemma JumpsFit(arch: uint32, denied: seq<nat>)
    requires |denied| <= 250
    ensures var prog := Layout(arch, denied);
            && |prog| == |denied| + 6
            && prog[..4] == [Instruction(LdW, 0, 0, 4), Instruction(JeqK, 1, 0, arch),
                             Instruction(RetK, 0, 0, 0x8000_0000), Instruction(LdW, 0, 0, 0)]
            && prog[|prog| - 2..] == [Instruction(RetK, 0, 0, 0x7fff_0000), Instruction(RetK, 0, 0, 0x0005_0001)]
            && forall i | 0 <= i < |denied| ::
                 && prog[4 + i].code == JeqK && prog[4 + i].jf == 0 && prog[4 + i].jt as nat == |denied| - i
                 && 4 + i + 1 + prog[4 + i].jt as nat == |prog| - 1
                 && prog[4 + i].k as nat == denied[i] % 0x1_0000_0000
  {
    var prog := Layout(arch, denied);
    forall i | 0 <= i < |denied|
      ensures prog[4 + i] == Compare(denied, i)
    {
    }
  }

  /** How far the guard could move: the same layout is right for every list of up
      to 255 numbers, and at 256 the first jump truncates to zero and lets the
      first denied call through. */
  lemma TruncationAt256(arch: uint32, denied: seq<nat>, data: Data)
    requires |denied| == 256 && data.arch == arch
    requires LowWord(denied[0]) == data.nr && !Listed(denied[1..], data.nr)
    ensures Interpret(Layout(arch, denied), 0, 0, data) == Some(RetAllow)
    ensures Meaning(arch, denied, data) == RetErrnoEperm
  {
    var prog := Layout(arch, denied);
    assert prog[0] == Load(ArchOffset) && prog[1] == Instruction(JeqK, 1, 0, arch) && prog[3] == Load(NrOffset);
    assert prog[4] == Compare(denied, 0) && prog[4].jt == 0;
    FallsThrough(arch, denied, 1, data);
    assert Interpret(prog, 4, data.nr, data) == Interpret(prog, 5, data.nr, data);
    assert Interpret(prog, 3, data.arch, data) == Interpret(prog, 4, data.nr, data);
    assert Interpret(prog, 1, data.arch, data) == Interpret(prog, 3, data.arch, data);
    assert Interpret(prog, 0, 0, data) == Interpret(prog, 1, data.arch, data);
  }

  lemma {:induction false} FallsThrough(arch: uint32, denied: seq<nat>, i: nat, data: Data)
    requires i <= |denied| && !Listed(denied[i..], data.nr)
    ensures Interpret(Layout(arch, denied), 4 + i, data.nr, data) == Some(RetAllow)
    decreases |denied| - i
  {
    var prog, n := Layout(arch, denied), |denied|;
    assert prog[4 + n] == Return(RetAllow);
    if i < n {
      assert prog[4 + i] == Compare(denied, i);
      assert denied[i..] == [denied[i]] + denied[i + 1..];
      assert denied[i] in [denied[i]];
      ListedSplit([denied[i]], denied[i + 1..], data.nr);
      FallsThrough(arch, denied, i + 1, data);
    }
  }

  // ---------------------------------------------------------------- network

  /** The list a worker is confined with. */
  function DenyList(base: seq<nat>, network: seq<nat>, allowNetwork: bool): seq<nat> {
    if allowNetwork then base else base + network
  }

  /** Denying the network refuses exactly the socket calls on top of what was
      refused already; it never lets a call through. */
  lemma DenyingNetworkShrinks(arch: uint32, base: seq<nat>, network: seq<nat>, data: Data)
    requires |base| + |network| <= 250
    ensures var wide := Interpret(Layout(arch, DenyList(base, network, true)), 0, 0, data);
            var narrow := Interpret(Layout(arch, DenyList(base, network, false)), 0, 0, data);
            && (narrow == Some(RetAllow) <==> wide == Some(RetAllow) && !Listed(network, data.nr))
            && (narrow != wide <==> wide == Some(RetAllow) && Listed(network, data.nr))
  {
    FilterIsCorrect(arch, base, data);
    FilterIsCorrect(arch, base + network, data);
    ListedSplit(base, network, data.nr);
  }
}
