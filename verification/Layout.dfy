/**
  What an instance directory holds (src/store.rs:9-16), one location per
  independently durable piece: a directory entry or the contents of a file.
 */
module Layout {

  datatype Option<+T> = None | Some(value: T)

  type GenerationId = nat
  type RunId = nat
  type CheckpointId = nat
  type Inode = nat
  type Name = string

  const MANIFEST: Name := "manifest.json"
  const ROOTFS: Name := "rootfs.ext4"
  const HOST_SHARE_STATE: Name := "host-share-state"
  const VMSTATE: Name := "vmstate.bin"
  const PAGES: Name := "pages.img"
  const PIN: Name := ".pin"
  const BEFORE_RESTORE: string := "before-restore"

  datatype Phase = Stopped | Running(run: RunId) | Dirty(run: RunId) {
    function Run(): Option<RunId> {
      match this
      case Stopped => None
      case Running(r) => Some(r)
      case Dirty(r) => Some(r)
    }
  }

  datatype Record = Record(latest: Option<GenerationId>, phase: Phase)

  datatype Origin =
    | Image
    | Snapshot(run: RunId)
    | SnapshotExit(run: RunId)
    | Checkpoint(run: RunId)
    | Salvage(run: RunId)
    | DropMemory
    | Edited
    | Migrated
    | Import

  datatype Manifest = Manifest(
    id: GenerationId,
    parent: Option<GenerationId>,
    origin: Origin,
    files: map<Name, nat>) {
    predicate HasMemory() { VMSTATE in files && PAGES in files }
  }

  /** Contents of one child of a generation or run directory. A disk image is
      the sequence of the guest writes it contains. */
  datatype Content =
    | Data(writes: seq<nat>)
    | Tree(entries: seq<nat>)
    | ManifestDoc(manifest: Manifest)

  datatype CheckpointRef = CheckpointRef(
    id: CheckpointId,
    name: Option<string>,
    generation: GenerationId,
    created: nat)

  datatype DirState = Staging | InPlace | Trash

  datatype Loc =
    | HomeEntry                                     // instances/<instance>, once it is published there
    | RecordEntry                                   // <instance>/state.json
    | RecordFile(inode: Inode)                      // contents of a record's temporary file
    | RefEntry(id: CheckpointId)                    // checkpoints/<id>.ref
    | RefFile(inode: Inode)
    | GenDir(gen: GenerationId)                     // generations/{.staging-,,.trash-}<gen>
    | GenName(gen: GenerationId, name: Name)        // directory entry inside it
    | GenFile(gen: GenerationId, name: Name)        // contents of that file
    | RunDir(run: RunId)                            // runs/<run>
    | RunName(run: RunId, name: Name)
    | RunFile(run: RunId, name: Name)

  datatype Val =
    | Absent
    | Link(inode: Inode)
    | RecordVal(record: Record)
    | RefVal(ref: CheckpointRef)
    | DirVal(state: DirState)
    | Present
    | FileVal(content: Content)

  /** What one `fsync` or `F_BARRIERFSYNC` is issued on. */
  datatype Obj =
    | InstancesDir
    | InstanceDir
    | CheckpointsDir
    | GenerationsDir
    | RunsDir
    | RecordTemp(inode: Inode)
    | RefTemp(inode: Inode)
    | GenDirObj(gen: GenerationId)
    | GenFileObj(gen: GenerationId, name: Name)
    | RunDirObj(run: RunId)
    | RunFileObj(run: RunId, name: Name)

  function ObjOf(l: Loc): Obj {
    match l
    case HomeEntry => InstancesDir
    case RecordEntry => InstanceDir
    case RecordFile(t) => RecordTemp(t)
    case RefEntry(_) => CheckpointsDir
    case RefFile(t) => RefTemp(t)
    case GenDir(_) => GenerationsDir
    case GenName(g, _) => GenDirObj(g)
    case GenFile(g, n) => GenFileObj(g, n)
    case RunDir(_) => RunsDir
    case RunName(r, _) => RunDirObj(r)
    case RunFile(r, n) => RunFileObj(r, n)
  }

  /** Directory entries, as opposed to file contents. */
  predicate IsMeta(l: Loc) {
    l.HomeEntry? || l.RecordEntry? || l.RefEntry? || l.GenDir? || l.GenName? || l.RunDir? || l.RunName?
  }

  type Fs = map<Loc, Val>

  function Get(fs: Fs, l: Loc): Val {
    if l in fs then fs[l] else Absent
  }
}
