/**
 The job-layer promotion protocol of scripts/ccache_layer.py as a state machine.

 Every rename, link, unlink, mkdir, file write and directory test of `attach`,
 `settle`, `sweep`, `process` and `trim` is one atomic step; any number of
 processes interleave arbitrarily, and each can crash between two steps. VM
 guests boot, write and disappear at any time. Directories are maps from names
 to layer identities and files are inodes, so a published entry really is a
 hard link to the file in the job's layer.
 */
module LayerProtocol {
  import opened Basics

  type VmName = string
  type Pid = nat
  type ProcId = nat
  type LayerId = nat
  type Ino = nat
  type Inst = nat

  // ---------------------------------------------------------------- entries

  datatype Kind = ResultEntry | ManifestEntry | NotAnEntry

  /** A path below a layer's remote/ directory or below shared/. */
  datatype Key = Key(dir: string, name: string)

  predicate KeyChar(c: char) { '0' <= c <= '9' || 'a' <= c <= 'z' }

  predicate ValidKey(k: Key) {
    && |k.dir| == 2 && (forall c | c in k.dir :: KeyChar(c))
    && 8 <= |k.name| <= 128 && (forall c | c in k.name :: KeyChar(c))
  }

  datatype File = File(kind: Kind, mtime: int, body: string)

  /** `layer` is the layer the bytes came from; a `copied` inode was made by the host. */
  datatype Inode = Inode(file: File, layer: LayerId, copied: bool)

  // ----------------------------------------------------------------- layers

  datatype Verdict = Pending | Green | Red | Orphaned | Stale

  /**
   `owner` is the supervisor that attached the layer; a directory a guest made
   itself has none. `access` is every VM instance that ever reached the layer
   through jobs/<vm>. `goneSeen` records that a promoter saw the VM absent.
   */
  datatype Layer = Layer(
    vm: VmName,
    owner: Option<Pid>,
    verdict: Verdict,
    entries: map<Key, Ino>,
    access: set<Inst>,
    goneSeen: bool)

  // -------------------------------------------------------- program counters

  datatype Pc =
    // attach
    | AttachCheck(v: VmName, p: Pid)
    | AttachTarget(v: VmName, p: Pid)
    | AttachStale(v: VmName, p: Pid, target: string)
    | AttachOwner(v: VmName, p: Pid)
    | AttachWrite(v: VmName, p: Pid)
    | AttachMkdir(v: VmName, p: Pid)
    // settle
    | SettleCheck(v: VmName, green: bool)
    | SettleTarget(v: VmName, green: bool)
    | SettleMove(v: VmName, green: bool, target: string)
    | SettleOwner(v: VmName, green: bool, target: string)
    | SettleMeta(v: VmName, target: string)
    // sweep, first loop
    | SweepList
    | SweepLoop(todo: set<VmName>)
    | SweepTest(v: VmName, todo: set<VmName>, owner: Option<Pid>)
    | SweepDead(v: VmName, todo: set<VmName>)
    | SweepMove(v: VmName, todo: set<VmName>, target: string)
    | SweepOwner(v: VmName, todo: set<VmName>)
    // process
    | ProcLock(name: string)
    | ProcDiscardTest(name: string)
    | ProcDelete(name: string)
    | ProcGreenTest(name: string)
    | ProcMeta(name: string)
    | ProcWait(name: string, vm: VmName)
    | ProcTarget(name: string)
    | ProcEvict(name: string, target: string)
    | ProcPromote(name: string, rest: set<Key>)
    | ProcReplace(name: string, key: Key, rest: set<Key>)
    | ProcRemove(name: string)
    | ProcUnmeta(name: string)

  /** VM guests, layer directories, files, and the jobs/ directory guests see. */
  datatype World = World(
    present: map<VmName, Inst>,
    nextInst: Inst,
    layers: seq<Layer>,
    inodes: seq<Inode>,
    jobs: map<string, LayerId>)

  datatype State = State(
    w: World,
    alive: set<Pid>,
    born: set<Pid>,
    green: map<string, LayerId>,
    discard: map<string, LayerId>,
    owners: map<VmName, Pid>,
    meta: map<string, VmName>,
    shared: map<Key, Ino>,
    locks: map<string, ProcId>,
    manifestLock: Option<ProcId>,
    procs: map<ProcId, Pc>,
    started: set<VmName>,   // history: names an attach was ever started for
    made: set<VmName>)      // history: names whose layer an attach ever created

  function Init(): State {
    State(World(map[], 0, [], [], map[]), {}, {}, map[], map[], map[], map[], map[], map[], None, map[], {}, {})
  }

  // ------------------------------------------------------------------ names

  /** `name.split(".", 1)[0]` */
  function BeforeDot(name: string): string {
    if name == "" || name[0] == '.' then "" else [name[0]] + BeforeDot(name[1..])
  }

  predicate Suffix(u: string) { |u| == 8 && '.' !in u }

  /** A name `unique_target` can choose for a layer of `vm`. */
  ghost predicate Named(name: string, vm: VmName) {
    name == vm || exists u :: Suffix(u) && name == vm + "." + u
  }

  function UniqueTarget(parent: map<string, LayerId>, vm: string, u: string): string {
    if vm !in parent then vm else vm + "." + u
  }

  // ------------------------------------------------------------------ steps

  /** What the environment decides in one step of a process. */
  datatype Choice = Choice(text: string, key: Key, flag: bool, copyAt: Option<int>)

  datatype Step =
    | SupStart(p: Pid)
    | SupDie(p: Pid)
    | VmBoot(v: VmName)
    | VmGone(v: VmName)
    | GuestOpen(v: VmName)
    | GuestMkdir(v: VmName)
    | GuestPut(v: VmName, l: LayerId, k: Key, file: File)
    | GuestWrite(v: VmName, i: Ino, file: File)
    | GuestUnlink(v: VmName, l: LayerId, k: Key)
    | TrimUnlink(k: Key)
    | Spawn(pr: ProcId, pc: Pc)
    | Crash(pr: ProcId)
    | Run(pr: ProcId, ch: Choice)

  predicate Entry(pc: Pc) {
    pc.AttachCheck? || pc.SettleCheck? || pc.SweepList? || pc.ProcLock?
  }

  /** A process goes on at `next`, or ends; the kernel then releases its flocks. */
  function Continue(s: State, pr: ProcId, next: Option<Pc>): State {
    if next.Some? then s.(procs := s.procs[pr := next.value])
    else s.(procs := s.procs - {pr},
            locks := map n | n in s.locks && s.locks[n] != pr :: s.locks[n],
            manifestLock := if s.manifestLock == Some(pr) then None else s.manifestLock)
  }

  // ------------------------------------------------------ changes to the world

  predicate Reaches(w: World, v: VmName, l: LayerId) {
    v in w.present && l < |w.layers| && w.present[v] in w.layers[l].access
  }

  function Boot(w: World, v: VmName): World {
    if v in w.present then w
    else w.(present := w.present[v := w.nextInst], nextInst := w.nextInst + 1)
  }

  function Open(w: World, v: VmName): World {
    if v in w.present && v in w.jobs && w.jobs[v] < |w.layers| then
      var l := w.jobs[v];
      w.(layers := w.layers[l := w.layers[l].(access := w.layers[l].access + {w.present[v]})])
    else w
  }

  function NewLayer(w: World, v: VmName, owner: Option<Pid>, access: set<Inst>): World {
    w.(layers := w.layers + [Layer(v, owner, Pending, map[], access, false)],
       jobs := w.jobs[v := |w.layers|])
  }

  /** mkdir(jobs/v/local) in a directory a guest made: it becomes the layer of the supervisor. */
  function Adopt(w: World, v: VmName, p: Pid): World
    requires v in w.jobs
  {
    if w.jobs[v] < |w.layers| && w.layers[w.jobs[v]].owner.None?
    then w.(layers := w.layers[w.jobs[v] := w.layers[w.jobs[v]].(owner := Some(p))])
    else w
  }

  function Made(w: World, v: VmName, p: Pid): World {
    if v in w.jobs then Adopt(w, v, p) else NewLayer(w, v, Some(p), {})
  }

  function Put(w: World, v: VmName, l: LayerId, k: Key, file: File): World {
    if Reaches(w, v, l) then
      w.(inodes := w.inodes + [Inode(file, l, false)],
         layers := w.layers[l := w.layers[l].(entries := w.layers[l].entries[k := |w.inodes|])])
    else w
  }

  function Write(w: World, v: VmName, i: Ino, file: File): World {
    if i < |w.inodes| && !w.inodes[i].copied && Reaches(w, v, w.inodes[i].layer) then
      w.(inodes := w.inodes[i := w.inodes[i].(file := file)])
    else w
  }

  function RemoveEntry(w: World, l: LayerId, k: Key): World {
    if l < |w.layers| then
      w.(layers := w.layers[l := w.layers[l].(entries := w.layers[l].entries - {k})])
    else w
  }

  /** The layer at jobs/`v` is renamed away with its final verdict. */
  function Take(w: World, v: VmName, verdict: Verdict): World
    requires v in w.jobs && w.jobs[v] < |w.layers|
  {
    var l := w.jobs[v];
    w.(layers := w.layers[l := w.layers[l].(verdict := verdict)], jobs := w.jobs - {v})
  }

  function SeenGone(w: World, l: LayerId): World
    requires l < |w.layers|
  {
    w.(layers := w.layers[l := w.layers[l].(goneSeen := true)])
  }

  function Copy(w: World, i: Ino, mtime: int): World
    requires i < |w.inodes|
  {
    w.(inodes := w.inodes + [Inode(w.inodes[i].file.(mtime := mtime), w.inodes[i].layer, true)])
  }

  // ---------------------------------------------------------------- all steps

  function StartSupervisor(s: State, p: Pid): State {
    if p in s.born then s else s.(alive := s.alive + {p}, born := s.born + {p})
  }

  /** A guest whose layer was moved away can make the directory of its name again. */
  function Mkdir(s: State, v: VmName): State {
    if v in s.w.present && v !in s.w.jobs && v in s.made
    then s.(w := NewLayer(s.w, v, None, {s.w.present[v]})) else s
  }

  function SpawnProc(s: State, pr: ProcId, pc: Pc): State {
    if pr in s.procs || !Entry(pc) then s
    else if pc.AttachCheck? then
      if pc.p in s.alive then Continue(s.(started := s.started + {pc.v}), pr, Some(pc)) else s
    else Continue(s, pr, Some(pc))
  }

  /** A step that is not enabled changes nothing. */
  function Apply(s: State, step: Step): State {
    match step
    case SupStart(p) => StartSupervisor(s, p)
    case SupDie(p) => s.(alive := s.alive - {p})
    case VmBoot(v) => s.(w := Boot(s.w, v))
    case VmGone(v) => s.(w := s.w.(present := s.w.present - {v}))
    case GuestOpen(v) => s.(w := Open(s.w, v))
    case GuestMkdir(v) => Mkdir(s, v)
    case GuestPut(v, l, k, file) => s.(w := Put(s.w, v, l, k, file))
    case GuestWrite(v, i, file) => s.(w := Write(s.w, v, i, file))
    case GuestUnlink(v, l, k) => if Reaches(s.w, v, l) then s.(w := RemoveEntry(s.w, l, k)) else s
    case TrimUnlink(k) => s.(shared := s.shared - {k})
    case Spawn(pr, pc) => SpawnProc(s, pr, pc)
    case Crash(pr) => if pr in s.procs then Continue(s, pr, None) else s
    case Run(pr, ch) =>
      if pr in s.procs then
        var op := Decide(s, s.procs[pr], ch);
        Continue(Perform(s, pr, op.effect), pr, op.next)
      else s
  }

  // ------------------------------------------------- the operations of a process

  /** What one file operation changes. */
  datatype Effect =
    | Nothing                                                  // a test, a read, or a failure
    | ToDiscard(v: VmName, target: string, verdict: Verdict)   // rename(jobs/v, discard/target)
    | ToGreen(v: VmName, target: string)                       // rename(jobs/v, green/target)
    | WriteOwner(v: VmName, p: Pid)
    | ClearOwner(v: VmName)                                    // unlinked, or opened for writing: nothing to read
    | MakeLayer(v: VmName, p: Pid)                             // mkdir jobs/v/local, parents too
    | WriteMeta(name: string, v: VmName)
    | UnlinkMeta(name: string)
    | Lock(name: string)
    | DropDiscard(name: string)                                // the end of rmtree(discard/name)
    | NoteGone(name: string)                                   // is_present answered no
    | Evict(name: string, target: string)                      // rename(green/name, discard/target)
    | LockManifests
    | LinkEntry(name: string, key: Key, copyAt: Option<int>)   // link into, or rename over, shared/key
    | DropEntry(name: string, key: Key)                        // one file of rmtree(green/name)
    | DropGreen(name: string)                                  // the end of rmtree(green/name)

  datatype Op = Op(effect: Effect, next: Option<Pc>)

  /** Entry `k` of green layer `n` passes the filter of `promote_layer`. */
  predicate Candidate(s: State, n: string, k: Key) {
    && n in s.green && s.green[n] < |s.w.layers|
    && k in s.w.layers[s.green[n]].entries && s.w.layers[s.green[n]].entries[k] < |s.w.inodes|
    && ValidKey(k)
    && s.w.inodes[s.w.layers[s.green[n]].entries[k]].file.kind != NotAnEntry
  }

  /** What `iter_layer_entries` lists of green layer `n`. */
  function Listed(s: State, n: string): set<Key> {
    if n in s.green && s.green[n] < |s.w.layers| then s.w.layers[s.green[n]].entries.Keys else {}
  }

  function Source(s: State, n: string, k: Key): Ino
    requires Candidate(s, n, k)
  {
    s.w.layers[s.green[n]].entries[k]
  }

  predicate CanMove(s: State, v: VmName, parent: map<string, LayerId>, target: string) {
    v in s.w.jobs && s.w.jobs[v] < |s.w.layers| && target !in parent
  }

  /** An effect whose operation would fail changes nothing. */
  function Perform(s: State, pr: ProcId, e: Effect): State {
    match e
    case Nothing => s
    case ToDiscard(v, target, verdict) =>
      if CanMove(s, v, s.discard, target)
      then s.(w := Take(s.w, v, verdict), discard := s.discard[target := s.w.jobs[v]]) else s
    case ToGreen(v, target) =>
      if CanMove(s, v, s.green, target)
      then s.(w := Take(s.w, v, Green), green := s.green[target := s.w.jobs[v]]) else s
    case WriteOwner(v, p) => s.(owners := s.owners[v := p])
    case ClearOwner(v) => s.(owners := s.owners - {v})
    case MakeLayer(v, p) => s.(w := Made(s.w, v, p), made := s.made + {v})
    case WriteMeta(n, v) => s.(meta := s.meta[n := v])
    case UnlinkMeta(n) => s.(meta := s.meta - {n})
    case Lock(n) => s.(locks := s.locks[n := pr])
    case DropDiscard(n) => s.(discard := s.discard - {n})
    case NoteGone(n) =>
      if n in s.green && s.green[n] < |s.w.layers| then s.(w := SeenGone(s.w, s.green[n])) else s
    case Evict(n, target) =>
      if n in s.green && target !in s.discard
      then s.(green := s.green - {n}, discard := s.discard[target := s.green[n]]) else s
    case LockManifests => s.(manifestLock := Some(pr))
    case LinkEntry(n, k, copyAt) => if Candidate(s, n, k) then Link(s, pr, k, Source(s, n, k), copyAt) else s
    case DropEntry(n, k) => if n in s.green then s.(w := RemoveEntry(s.w, s.green[n], k)) else s
    case DropGreen(n) => s.(green := s.green - {n})
  }

  /** Key `k` of shared/ names inode `i`, or a fresh host copy of it; the manifest lock is let go. */
  function Link(s: State, pr: ProcId, k: Key, i: Ino, copyAt: Option<int>): State
    requires i < |s.w.inodes|
  {
    var s' := s.(manifestLock := if s.manifestLock == Some(pr) then None else s.manifestLock);
    if copyAt.Some? then s'.(w := Copy(s.w, i, copyAt.value), shared := s.shared[k := |s.w.inodes|])
    else s'.(shared := s.shared[k := i])
  }

  /** The next operation of a process at `pc`. */
  function Decide(s: State, pc: Pc, ch: Choice): Op {
    if pc.AttachCheck? || pc.AttachTarget? || pc.AttachStale? || pc.AttachOwner? || pc.AttachWrite? || pc.AttachMkdir? then
      DecideAttach(s, pc, ch)
    else if pc.SettleCheck? || pc.SettleTarget? || pc.SettleMove? || pc.SettleOwner? || pc.SettleMeta? then
      DecideSettle(s, pc, ch)
    else if pc.SweepList? || pc.SweepLoop? || pc.SweepTest? || pc.SweepDead? || pc.SweepMove? || pc.SweepOwner? then
      DecideSweep(s, pc, ch)
    else
      DecideProcess(s, pc, ch)
  }

  function DecideAttach(s: State, pc: Pc, ch: Choice): Op {
    match pc
    case AttachCheck(v, p) => Op(Nothing, Some(if v in s.w.jobs then AttachTarget(v, p) else AttachOwner(v, p)))
    case AttachTarget(v, p) =>
      Op(Nothing, Some(if Suffix(ch.text) then AttachStale(v, p, UniqueTarget(s.discard, v, ch.text)) else pc))
    case AttachStale(v, p, target) =>
      if CanMove(s, v, s.discard, target) then Op(ToDiscard(v, target, Stale), Some(AttachOwner(v, p)))
      else Op(Nothing, None)
    case AttachOwner(v, p) => Op(ClearOwner(v), Some(AttachWrite(v, p)))          // open() truncates
    case AttachWrite(v, p) => Op(WriteOwner(v, p), Some(AttachMkdir(v, p)))
    case AttachMkdir(v, p) => Op(if v in s.w.jobs && !ch.flag then Nothing else MakeLayer(v, p), None)
    case _ => Op(Nothing, Some(pc))
  }

  function DecideSettle(s: State, pc: Pc, ch: Choice): Op {
    match pc
    case SettleCheck(v, green) => Op(Nothing, if v in s.w.jobs then Some(SettleTarget(v, green)) else None)
    case SettleTarget(v, green) =>
      var parent := if green then s.green else s.discard;
      Op(Nothing, Some(if Suffix(ch.text) then SettleMove(v, green, UniqueTarget(parent, v, ch.text)) else pc))
    case SettleMove(v, green, target) =>
      if !CanMove(s, v, if green then s.green else s.discard, target) then Op(Nothing, None)
      else Op(if green then ToGreen(v, target) else ToDiscard(v, target, Red), Some(SettleOwner(v, green, target)))
    case SettleOwner(v, green, target) => Op(ClearOwner(v), if green then Some(SettleMeta(v, target)) else None)
    case SettleMeta(v, target) => Op(WriteMeta(target, v), None)
    case _ => Op(Nothing, Some(pc))
  }

  /** The owner file is read first and its pid tested then; `ch.flag` lets a dead owner look alive, as a reused pid does. */
  function DecideSweep(s: State, pc: Pc, ch: Choice): Op {
    match pc
    case SweepList => Op(Nothing, Some(SweepLoop(s.w.jobs.Keys)))
    case SweepLoop(todo) =>
      var v := ch.text;
      if todo == {} then Op(Nothing, None)
      else if v !in todo then Op(Nothing, Some(pc))
      else Op(Nothing, Some(SweepTest(v, todo - {v}, if v in s.owners then Some(s.owners[v]) else None)))
    case SweepTest(v, todo, owner) =>
      if owner.Some? && (owner.value in s.alive || ch.flag) then Op(Nothing, Some(SweepLoop(todo)))
      else Op(Nothing, Some(SweepDead(v, todo)))
    case SweepDead(v, todo) =>
      Op(Nothing, Some(if Suffix(ch.text) then SweepMove(v, todo, UniqueTarget(s.discard, v, ch.text)) else pc))
    case SweepMove(v, todo, target) =>
      if CanMove(s, v, s.discard, target) then Op(ToDiscard(v, target, Orphaned), Some(SweepOwner(v, todo)))
      else Op(Nothing, None)
    case SweepOwner(v, todo) => Op(ClearOwner(v), Some(SweepLoop(todo)))
    case _ => Op(Nothing, Some(pc))
  }

  function DecideProcess(s: State, pc: Pc, ch: Choice): Op {
    match pc
    case ProcLock(n) => if n in s.locks then Op(Nothing, None) else Op(Lock(n), Some(ProcDiscardTest(n)))
    case ProcDiscardTest(n) => Op(Nothing, Some(if n in s.discard then ProcDelete(n) else ProcGreenTest(n)))
    case ProcDelete(n) => Op(if ch.flag then DropDiscard(n) else Nothing, None)
    case ProcGreenTest(n) => Op(Nothing, if n in s.green then Some(ProcMeta(n)) else None)
    case ProcMeta(n) => Op(Nothing, Some(ProcWait(n, if n in s.meta then s.meta[n] else BeforeDot(n))))
    case ProcWait(n, vm) =>
      if ch.flag then Op(Nothing, Some(ProcTarget(n)))               // the timeout passed
      else if vm in s.w.present then Op(Nothing, Some(pc))           // poll again
      else Op(NoteGone(n), Some(ProcPromote(n, Listed(s, n))))       // proved absent
    case ProcTarget(n) =>
      Op(Nothing, Some(if Suffix(ch.text) then ProcEvict(n, UniqueTarget(s.discard, n, ch.text)) else pc))
    case ProcEvict(n, target) =>
      if n in s.green && target !in s.discard then Op(Evict(n, target), Some(ProcUnmeta(n))) else Op(Nothing, None)
    case ProcPromote(n, rest) =>
      if rest == {} then Op(Nothing, Some(ProcRemove(n)))
      else if ch.key !in rest then Op(Nothing, Some(pc))
      else if Candidate(s, n, ch.key) then DecidePublish(s, n, rest, ch)
      else Op(Nothing, Some(ProcPromote(n, rest - {ch.key})))        // rejected
    case ProcReplace(n, k, rest) =>
      if Candidate(s, n, k) then
        var keep := s.w.inodes[Source(s, n, k)].file.mtime;
        Op(LinkEntry(n, k, if ch.copyAt.Some? then Some(keep) else None), Some(ProcPromote(n, rest)))
      else Op(Nothing, None)
    case ProcRemove(n) => if ch.flag then Op(DropGreen(n), Some(ProcUnmeta(n))) else Op(DropEntry(n, ch.key), Some(pc))
    case ProcUnmeta(n) => Op(UnlinkMeta(n), None)
    case _ => Op(Nothing, Some(pc))
  }

  /**
   `publish_result`: one link(), which fails on an existing key (`ch.copyAt` is a filesystem that
   refuses the link, so a copy is linked). `publish_manifest`: the comparison under the manifest
   lock; the replacement itself is the next operation.
   */
  function DecidePublish(s: State, n: string, listed: set<Key>, ch: Choice): Op
    requires Candidate(s, n, ch.key)
  {
    var k, file := ch.key, s.w.inodes[Source(s, n, ch.key)].file;
    var rest := listed - {k};
    if file.kind == ManifestEntry then
      if s.manifestLock != None then Op(Nothing, Some(ProcPromote(n, listed)))    // flock blocks
      else if k in s.shared && s.shared[k] < |s.w.inodes| && file.mtime <= s.w.inodes[s.shared[k]].file.mtime then
        Op(Nothing, Some(ProcPromote(n, rest)))
      else Op(LockManifests, Some(ProcReplace(n, k, rest)))
    else if k in s.shared then Op(Nothing, Some(ProcPromote(n, rest)))
    else Op(LinkEntry(n, k, ch.copyAt), Some(ProcPromote(n, rest)))
  }

  function Exec(s: State, steps: seq<Step>): State {
    if steps == [] then s else Apply(Exec(s, steps[..|steps| - 1]), steps[|steps| - 1])
  }
}
