/** The PVE world the executor drives: guests with a config and a power state, storage contents, and
    calls that PVE may refuse or whose answer may be lost. */
module World {
  import opened Text
  import opened Devices
  import opened Owned
  import opened Plan
  import Codec

  datatype Family = Qemu | Ct

  datatype Loc = Loc(node: string, id: int)

  datatype Obj = Obj(family: Family, config: Config, running: bool)

  datatype Site = Site(objs: map<Loc, Obj>, files: set<LiveKey>)

  /** What may go wrong with one call beyond PVE's own rules: it is refused without effect, it takes
      effect while the caller sees a failure, or a config write stops after some of its keys. */
  datatype Fault = Works | Refused | Lost | Partial(keys: set<Key>)

  datatype Call =
    | CreateObj(family: Family, params: Config, start: bool)
    | WriteConfig(sets: Config, deletes: set<Key>)
    | ReadConfig
    | SetTemplate
    | CloneTo(dst: int, name: string)
    | StartObj
    | StopObj
    | Destroy
    | Download(file: LiveKey)

  datatype Event = Event(loc: Loc, call: Call, ok: bool, wasRunning: bool)

  /** Calls consume the fault script; past its end every call works. */
  datatype World = World(site: Site, faults: seq<Fault>, log: seq<Event>)

  /** Create form of a storage-backed volume: a cloud-init drive or a bare size after the pool. */
  predicate IsCreateForm(val: string) {
    var i := IndexOf(val, ':');
    i > 0 && i < |val| && CreateRest(val[i + 1..])
  }

  predicate CreateRest(rest: string) {
    var head := rest[..IndexOf(rest, ',')];
    || HasPrefix(rest, "cloudinit")
    || (exists j | 0 <= j < |rest| :: HasPrefix(rest[j..], ":cloudinit"))
    || (head != "" && AllDigits(head))
  }

  /** PVE takes a config write unless it sets and deletes one key or would create a volume in a slot
      that holds one. */
  predicate Accepts(cfg: Config, sets: Config, deletes: set<Key>) {
    sets.Keys !! deletes && forall k | k in sets :: !(IsCreateForm(sets[k]) && !IsNewSlot(Get(cfg - deletes, k)))
  }

  function RenameVolume(val: string, src: int, dst: int): string {
    var i := IndexOf(val, ':');
    var vm, base := "vm-" + Itoa(src) + "-", "base-" + Itoa(src) + "-";
    if i == 0 || i == |val| then val
    else
      var pool, rest := val[..i], val[i + 1..];
      if HasPrefix(rest, vm) then pool + ":vm-" + Itoa(dst) + "-" + rest[|vm|..]
      else if HasPrefix(rest, base) then pool + ":vm-" + Itoa(dst) + "-" + rest[|base|..]
      else val
  }

  function HexByte(n: int): string { [Codec.HexChar((n / 16) % 16), Codec.HexChar(n % 16)] }

  function FreshMac(dst: int): string {
    "52:54:00:" + HexByte((dst / 0x1_0000) % 256) + ":" + HexByte((dst / 0x100) % 256) + ":" + HexByte(dst % 256)
  }

  predicate IsModelToken(t: string) {
    HasPrefix(t, "virtio=") || HasPrefix(t, "e1000=") || HasPrefix(t, "rtl8139=") || HasPrefix(t, "vmxnet3=")
  }

  function RegenMac(parts: seq<string>, dst: int): seq<string> {
    if parts == [] then []
    else if IsModelToken(parts[0]) then [parts[0][..IndexOf(parts[0], '=')] + "=" + FreshMac(dst)] + parts[1..]
    else [parts[0]] + RegenMac(parts[1..], dst)
  }

  predicate VolumeKey(k: Key) {
    k in {Ide2, Ide3, Efidisk0, Tpm0}
    || (k.Dev? && (HasPrefix(k.name, "scsi") || HasPrefix(k.name, "virtio") || HasPrefix(k.name, "sata") || HasPrefix(k.name, "ide")))
  }

  function ClonedValue(k: Key, v: string, src: int, dst: int): string {
    if VolumeKey(k) then RenameVolume(v, src, dst)
    else if k.Dev? && HasPrefix(k.name, "net") then Join(RegenMac(Split(v, ','), dst), ",")
    else v
  }

  /** A full clone: the source's config without template flag and name, on fresh volumes. */
  function ClonedConfig(cfg: Config, src: int, dst: int, name: string): Config {
    (map k | k in cfg && k != TemplateFlag && k != Name :: ClonedValue(k, cfg[k], src, dst))
    + (if name != "" then map[Name := name] else map[])
  }

  /** What a call does when PVE takes it; None when PVE refuses. The clone call is the VM one. */
  function Effect(s: Site, loc: Loc, call: Call): Option<Site> {
    match call
    case CreateObj(family, params, start) =>
      if loc in s.objs then None else Some(s.(objs := s.objs[loc := Obj(family, CreatedConfig(loc.id, params), start)]))
    case CloneTo(dst, name) =>
      if loc !in s.objs || s.objs[loc].family != Qemu || Loc(loc.node, dst) in s.objs then None
      else
        var src := s.objs[loc];
        Some(s.(objs := s.objs[Loc(loc.node, dst) := Obj(src.family, ClonedConfig(src.config, loc.id, dst, name), false)]))
    case Download(file) => Some(s.(files := s.files + {file}))
    case _ =>
      if loc !in s.objs then None
      else
        var obj := s.objs[loc];
        match call
        case WriteConfig(sets, deletes) =>
          if !Accepts(obj.config, sets, deletes) then None
          else Some(s.(objs := s.objs[loc := obj.(config := Written(obj.config, sets, deletes))]))
        case SetTemplate => Some(s.(objs := s.objs[loc := obj.(config := obj.config[TemplateFlag := "1"], running := false)]))
        case StartObj => if obj.running then None else Some(s.(objs := s.objs[loc := obj.(running := true)]))
        case StopObj => if !obj.running then None else Some(s.(objs := s.objs[loc := obj.(running := false)]))
        case Destroy => if obj.running then None else Some(s.(objs := s.objs - {loc}))
        case _ => Some(s)
  }

  /** The settings of a write that PVE stores when it gets no further than these keys. */
  function Stored(cfg: Config, sets: Config, deletes: set<Key>, keys: set<Key>): Config {
    map k | k in sets && k in keys && !(IsCreateForm(sets[k]) && !IsNewSlot(Get(cfg - deletes, k))) :: sets[k]
  }

  /** A config write that stops halfway, as the one PVE refuses may. */
  function PartEffect(s: Site, loc: Loc, call: Call, keys: set<Key>): Site {
    if !call.WriteConfig? || loc !in s.objs then s
    else
      var obj, deletes := s.objs[loc], call.deletes * keys;
      s.(objs := s.objs[loc := obj.(config := Written(obj.config, Stored(obj.config, call.sets, deletes, keys), deletes))])
  }

  /** What a call leaves behind. */
  function After(s: Site, loc: Loc, call: Call, fault: Fault): Site {
    match fault
    case Refused => s
    case Partial(keys) => PartEffect(s, loc, call, keys)
    case _ => if Effect(s, loc, call).Some? then Effect(s, loc, call).value else s
  }

  predicate Running(s: Site, loc: Loc) { loc in s.objs && s.objs[loc].running }

  datatype Outcome = Outcome(world: World, ok: bool)

  /** One call: the next fault of the script decides between PVE's answer and a failure. */
  function Do(w: World, loc: Loc, call: Call): Outcome {
    var fault := if w.faults == [] then Works else w.faults[0];
    var effect := Effect(w.site, loc, call);
    var ok := effect.Some? && fault == Works;
    Outcome(World(After(w.site, loc, call, fault),
                  if w.faults == [] then [] else w.faults[1..],
                  w.log + [Event(loc, call, ok, Running(w.site, loc))]),
            ok)
  }

  /** The client the executor holds: each method call is one PVE request with its task wait. */
  class Pve {
    var world: World

    constructor (world: World)
      ensures this.world == world
    {
      this.world := world;
    }

    method Request(loc: Loc, call: Call) returns (ok: bool)
      modifies this
      ensures world == Do(old(world), loc, call).world && ok == Do(old(world), loc, call).ok
    {
      var fault := Works;
      if world.faults != [] {
        fault := world.faults[0];
      }
      var effect := Effect(world.site, loc, call);
      var site := After(world.site, loc, call, fault);
      ok := effect.Some? && fault == Works;
      world := World(site, if world.faults == [] then [] else world.faults[1..],
                     world.log + [Event(loc, call, ok, Running(world.site, loc))]);
    }

    function Config(loc: Loc): Owned.Config
      reads this
    {
      if loc in world.site.objs then world.site.objs[loc].config else map[]
    }
  }
}
