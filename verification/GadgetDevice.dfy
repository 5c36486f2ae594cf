/** The gadget of the device itself: the ten items of its default configuration
    with any of them switched on, and any attribute values. */
module GadgetDevice {
  import opened Wrappers
  import opened ChangeSet
  import opened GadgetTx
  import opened GadgetSafety
  import opened GadgetPaths

  const CONFIG_FS: Path := ["sys", "kernel", "config"]
  const GADGET: Path := ["sys", "kernel", "config", "usb_gadget", "jetkvm"]
  const C1: Path := ["sys", "kernel", "config", "usb_gadget", "jetkvm", "configs", "c.1"]
  const DWC3: Path := ["sys", "bus", "platform", "drivers", "dwc3"]

  predicate OnDevice(p: Paths) {
    p == Paths(CONFIG_FS, GADGET, C1, DWC3, p.udc)
  }

  // ---- The default configuration ----

  datatype Devices = Devices(
    absoluteMouse: bool, relativeMouse: bool, keyboard: bool, massStorage: bool, serialConsole: bool, audio: bool)

  const HID_NAMES := ["protocol", "subclass", "report_length", "no_out_endpoint", "wakeup_on_write"]

  /** The attributes of an item: these names, in any order, with any values. */
  ghost predicate HasNames(attrs: seq<Attr>, names: seq<string>) {
    && |attrs| == |names|
    && (forall i, j :: 0 <= i < j < |attrs| ==> attrs[i].name != attrs[j].name)
    && (forall a :: a in attrs ==> a.name in names)
  }

  ghost predicate IsBase(item: Item) {
    && item == Item(true, "", [], item.attrs, None, item.configAttrs, None)
    && HasNames(item.attrs, ["bcdUSB", "idVendor", "idProduct", "bcdDevice"])
    && item.configAttrs.Some? && HasNames(item.configAttrs.value, ["MaxPower", "bmAttributes"])
  }

  ghost predicate IsBaseInfo(item: Item) {
    && item == Item(true, "", ["strings", "0x409"], item.attrs, Some(["strings", "0x409"]), item.configAttrs, None)
    && HasNames(item.attrs, ["serialnumber", "manufacturer", "product"])
    && item.configAttrs.Some? && HasNames(item.configAttrs.value, ["configuration"])
  }

  ghost predicate IsFunctionItem(item: Item, enabled: bool, device: string, names: seq<string>) {
    && item == Item(enabled, device, ["functions", device], item.attrs, Some([device]), None, item.reportDesc)
    && HasNames(item.attrs, names)
  }

  ghost predicate IsLun(item: Item, enabled: bool) {
    && item == Item(enabled, "", ["functions", "mass_storage.usb0", "lun.0"], item.attrs, None, None, None)
    && HasNames(item.attrs, ["cdrom", "ro", "removable", "file", "inquiry_string"])
  }

  /** The items in their order. The wake device cannot be switched off. */
  ghost predicate IsDeviceConfig(items: seq<Item>, on: Devices) {
    && |items| == 10
    && IsBase(items[0])
    && IsBaseInfo(items[1])
    && IsFunctionItem(items[2], on.keyboard, "hid.usb0", HID_NAMES)
    && IsFunctionItem(items[3], on.absoluteMouse, "hid.usb1", HID_NAMES)
    && IsFunctionItem(items[4], on.relativeMouse, "hid.usb2", HID_NAMES)
    && IsFunctionItem(items[5], true, "hid.usb3", HID_NAMES)
    && IsFunctionItem(items[6], on.audio, "uac1.usb0", ["c_chmask", "c_srate", "c_ssize", "p_chmask"])
    && IsFunctionItem(items[7], on.massStorage, "mass_storage.usb0", ["stall"])
    && IsLun(items[8], on.massStorage)
    && IsFunctionItem(items[9], on.serialConsole, "acm.usb0", [])
  }

  function AttrsOf(names: seq<string>, value: string -> seq<Byte>): (r: seq<Attr>)
    ensures |r| == |names| && forall i :: 0 <= i < |names| ==> r[i] == Attr(names[i], value(names[i]))
  {
    seq(|names|, i requires 0 <= i < |names| => Attr(names[i], value(names[i])))
  }

  function FunctionItem(enabled: bool, device: string, names: seq<string>, desc: Option<seq<Byte>>,
                        value: string -> seq<Byte>): Item
  {
    Item(enabled, device, ["functions", device], AttrsOf(names, value), Some([device]), None, desc)
  }

  /** The list for given switches, attribute values and report descriptors. */
  function DefaultItems(on: Devices, value: string -> seq<Byte>, desc: seq<Byte>): seq<Item> {
    [Item(true, "", [], AttrsOf(["bcdUSB", "idVendor", "idProduct", "bcdDevice"], value),
          None, Some(AttrsOf(["MaxPower", "bmAttributes"], value)), None),
     Item(true, "", ["strings", "0x409"], AttrsOf(["serialnumber", "manufacturer", "product"], value),
          Some(["strings", "0x409"]), Some(AttrsOf(["configuration"], value)), None),
     FunctionItem(on.keyboard, "hid.usb0", HID_NAMES, Some(desc), value),
     FunctionItem(on.absoluteMouse, "hid.usb1", HID_NAMES, Some(desc), value),
     FunctionItem(on.relativeMouse, "hid.usb2", HID_NAMES, Some(desc), value),
     FunctionItem(true, "hid.usb3", HID_NAMES, Some(desc), value),
     FunctionItem(on.audio, "uac1.usb0", ["c_chmask", "c_srate", "c_ssize", "p_chmask"], None, value),
     FunctionItem(on.massStorage, "mass_storage.usb0", ["stall"], None, value),
     Item(on.massStorage, "", ["functions", "mass_storage.usb0", "lun.0"],
          AttrsOf(["cdrom", "ro", "removable", "file", "inquiry_string"], value), None, None, None),
     FunctionItem(on.serialConsole, "acm.usb0", [], None, value)]
  }

  lemma AttrsHaveNames(names: seq<string>, value: string -> seq<Byte>)
    requires Distinct(names)
    ensures HasNames(AttrsOf(names, value), names)
  {
    hide AttrsOf;
  }

  lemma AttributeNamesDiffer()
    ensures Distinct(["bcdUSB", "idVendor", "idProduct", "bcdDevice"]) && Distinct(["MaxPower", "bmAttributes"])
    ensures Distinct(["serialnumber", "manufacturer", "product"]) && Distinct(["configuration"])
    ensures Distinct(HID_NAMES) && Distinct(["c_chmask", "c_srate", "c_ssize", "p_chmask"])
    ensures Distinct(["stall"]) && Distinct(["cdrom", "ro", "removable", "file", "inquiry_string"])
  {
    assert "protocol"[0] != "subclass"[0] && "c_srate"[4] != "c_ssize"[4] && "c_chmask"[0] != "p_chmask"[0];
    assert "serialnumber"[0] != "manufacturer"[0] && "no_out_endpoint"[0] != "wakeup_on_write"[0];
  }

  lemma DefaultIsDeviceConfig(on: Devices, value: string -> seq<Byte>, desc: seq<Byte>)
    ensures IsDeviceConfig(DefaultItems(on, value, desc), on)
  {
    AttributeNamesDiffer();
    assert Distinct<string>([]);
    hide HasNames, AttrsOf, Distinct;
    AttrsHaveNames(["bcdUSB", "idVendor", "idProduct", "bcdDevice"], value);
    AttrsHaveNames(["MaxPower", "bmAttributes"], value);
    AttrsHaveNames(["serialnumber", "manufacturer", "product"], value);
    AttrsHaveNames(["configuration"], value);
    AttrsHaveNames(HID_NAMES, value);
    AttrsHaveNames(["c_chmask", "c_srate", "c_ssize", "p_chmask"], value);
    AttrsHaveNames(["stall"], value);
    AttrsHaveNames(["cdrom", "ro", "removable", "file", "inquiry_string"], value);
    AttrsHaveNames([], value);
  }

  // ---- Where the paths of an item lie ----

  datatype Kind = Base | Info | Function | Lun

  const KINDS := [Base, Info, Function, Function, Function, Function, Function, Function, Lun, Function]

  const DEVICES := ["", "", "hid.usb0", "hid.usb1", "hid.usb2", "hid.usb3", "uac1.usb0", "mass_storage.usb0", "", "acm.usb0"]

  /** Attributes of different names, none of them one of `taken`. */
  ghost predicate AreFree(attrs: seq<Attr>, taken: set<string>) {
    && (forall i, j :: 0 <= i < j < |attrs| ==> attrs[i].name != attrs[j].name)
    && (forall a :: a in attrs ==> a.name !in taken)
  }

  /** What the paths of an item depend on. */
  ghost predicate IsOfKind(item: Item, kind: Kind) {
    match kind
    case Base =>
      && item.enabled && item.path == [] && item.configPath.None?
      && AreFree(item.attrs, {"report_desc", "UDC"})
      && item.configAttrs.Some? && AreFree(item.configAttrs.value, {})
      && (forall a :: a in item.configAttrs.value ==> a.name in {"MaxPower", "bmAttributes"})
    case Info =>
      && item.enabled && item.path == ["strings", "0x409"] && item.configPath == Some(["strings", "0x409"])
      && AreFree(item.attrs, {"report_desc"})
      && item.configAttrs.Some? && AreFree(item.configAttrs.value, {})
    case Function =>
      && item.path == ["functions", item.device] && item.configPath == Some([item.device]) && item.configAttrs.None?
      && AreFree(item.attrs, {"report_desc", "lun.0"})
      && item.device !in {"MaxPower", "bmAttributes", "strings"}
    case Lun =>
      && item.path == ["functions", "mass_storage.usb0", "lun.0"] && item.configPath.None? && item.configAttrs.None?
      && AreFree(item.attrs, {"report_desc"})
  }

  predicate IsBelow(dir: Path, q: Path) {
    |dir| < |q| && q[..|dir|] == dir
  }

  /** Where a path of an item may lie. */
  predicate IsPlace(item: Item, kind: Kind, q: Path) {
    match kind
    case Base =>
      || (IsBelow(GADGET, q) && |q| == 6 && q[5] != "UDC")
      || (IsBelow(C1, q) && |q| == 8 && q[7] in {"MaxPower", "bmAttributes"})
    case Info =>
      || (IsBelow(GADGET, q) && |q| >= 7 && q[5] == "strings")
      || (IsBelow(C1, q) && |q| >= 9 && q[7] == "strings")
    case Function =>
      if item.enabled then
        && IsBelow(GADGET, q) && 7 <= |q| <= 8 && q[5] == "functions" && q[6] == item.device
        && (|q| == 8 ==> q[7] != "lun.0")
      else q == C1 + [item.device]
    case Lun =>
      IsBelow(GADGET, q) && |q| >= 8 && q[5] == "functions" && q[6] == "mass_storage.usb0" && q[7] == "lun.0"
  }

  lemma BaseFits(item: Item)
    requires IsBase(item)
    ensures IsOfKind(item, Base)
  {
    assert "report_desc" !in ["bcdUSB", "idVendor", "idProduct", "bcdDevice"];
  }

  lemma InfoFits(item: Item)
    requires IsBaseInfo(item)
    ensures IsOfKind(item, Info)
  {
  }

  lemma FunctionFits(item: Item, enabled: bool, device: string, names: seq<string>)
    requires IsFunctionItem(item, enabled, device, names)
    requires "report_desc" !in names && "lun.0" !in names && device !in {"MaxPower", "bmAttributes", "strings"}
    ensures IsOfKind(item, Function) && item.device == device && item.enabled == enabled
  {
  }

  lemma LunFits(item: Item, enabled: bool)
    requires IsLun(item, enabled)
    ensures IsOfKind(item, Lun) && item.enabled == enabled
  {
  }

  lemma HidNamesAreFree()
    ensures "report_desc" !in HID_NAMES && "lun.0" !in HID_NAMES
  {
    assert "report_desc"[7] != "report_length"[7];
  }

  lemma DeviceNames()
    ensures forall i :: 0 <= i < 10 ==> DEVICES[i] !in {"MaxPower", "bmAttributes", "strings"}
    ensures forall i, j :: 0 <= i < j < 10 && KINDS[i].Function? && KINDS[j].Function? ==> DEVICES[i] != DEVICES[j]
  {
    var a, b, c, d := "hid.usb0", "hid.usb1", "hid.usb2", "hid.usb3";
    assert a[7] == '0' && b[7] == '1' && c[7] == '2' && d[7] == '3' && |a| == |b| == |c| == |d| == 8;
    assert "acm.usb0"[0] == 'a' && "uac1.usb0"[0] == 'u' && |"MaxPower"| == 8 && "MaxPower"[0] == 'M';
    assert |"bmAttributes"| == 12 && |"strings"| == 7 && |"mass_storage.usb0"| == 17;
  }

  /** What the default configuration comes to. */
  ghost predicate Fits(items: seq<Item>, on: Devices) {
    |items| == 10 && forall i :: 0 <= i < 10 ==> FitsAt(items[i], on, i)
  }

  ghost predicate FitsAt(item: Item, on: Devices, i: nat)
    requires i < 10
  {
    && IsOfKind(item, KINDS[i])
    && (KINDS[i].Function? ==> item.device == DEVICES[i] && item.enabled == IsOn(on, i))
  }

  predicate IsOn(on: Devices, i: nat)
    requires i < 10
  {
    match i
    case 2 => on.keyboard
    case 3 => on.absoluteMouse
    case 4 => on.relativeMouse
    case 6 => on.audio
    case 7 => on.massStorage
    case 8 => on.massStorage
    case 9 => on.serialConsole
    case _ => true
  }

  lemma FunctionFitsAt(item: Item, on: Devices, i: nat, names: seq<string>)
    requires i < 10 && KINDS[i].Function? && IsFunctionItem(item, IsOn(on, i), DEVICES[i], names)
    requires "report_desc" !in names && "lun.0" !in names
    ensures FitsAt(item, on, i)
  {
    hide IsFunctionItem, IsOfKind;
    DeviceNames();
    FunctionFits(item, IsOn(on, i), DEVICES[i], names);
  }

  lemma ConfigFits(items: seq<Item>, on: Devices)
    requires IsDeviceConfig(items, on)
    ensures Fits(items, on)
  {
    hide IsBase, IsBaseInfo, IsLun, IsFunctionItem, IsOfKind;
    BaseFits(items[0]);
    InfoFits(items[1]);
    LunFits(items[8], on.massStorage);
    assert FitsAt(items[0], on, 0) && FitsAt(items[1], on, 1) && FitsAt(items[8], on, 8);
    HidNamesAreFree();
    var d := DEVICES;
    assert d[2] == "hid.usb0" && d[3] == "hid.usb1" && d[4] == "hid.usb2" && d[5] == "hid.usb3";
    assert d[6] == "uac1.usb0" && d[7] == "mass_storage.usb0" && d[9] == "acm.usb0";
    hide FitsAt;
    FunctionFitsAt(items[2], on, 2, HID_NAMES);
    FunctionFitsAt(items[3], on, 3, HID_NAMES);
    FunctionFitsAt(items[4], on, 4, HID_NAMES);
    FunctionFitsAt(items[5], on, 5, HID_NAMES);
    FunctionFitsAt(items[6], on, 6, ["c_chmask", "c_srate", "c_ssize", "p_chmask"]);
    FunctionFitsAt(items[7], on, 7, ["stall"]);
    FunctionFitsAt(items[9], on, 9, []);
  }

  // ---- Every path lies in its place ----

  /** `q` is in `dir`, by the name of an attribute or of the descriptor. */
  ghost predicate IsFileIn(dir: Path, attrs: seq<Attr>, q: Path) {
    |q| == |dir| + 1 && q[..|dir|] == dir && (q[|dir|] == "report_desc" || exists a :: a in attrs && a.name == q[|dir|])
  }

  lemma AttrPathsAre(dir: Path, attrs: seq<Attr>, taken: set<string>)
    requires AreFree(attrs, taken)
    ensures Distinct(AttrPaths(dir, attrs))
    ensures forall q :: q in AttrPaths(dir, attrs) ==> IsFileIn(dir, attrs, q)
    ensures forall q :: q in AttrPaths(dir, attrs) ==> q[|dir|] !in taken
  {
    var ps := AttrPaths(dir, attrs);
    forall i | 0 <= i < |ps|
      ensures |ps[i]| == |dir| + 1 && ps[i][..|dir|] == dir && ps[i][|dir|] == attrs[i].name && attrs[i] in attrs
    {
    }
  }

  lemma DistinctConcat<T>(a: seq<T>, b: seq<T>)
    requires Distinct(a) && Distinct(b) && forall x :: x in a ==> x !in b
    ensures Distinct(a + b)
  {
    assert forall i :: 0 <= i < |a| ==> a[i] in a;
    assert forall i :: 0 <= i < |b| ==> b[i] in b;
  }

  lemma FunctionPathsAre(p: Paths, item: Item)
    requires AreFree(item.attrs, {"report_desc"})
    ensures Distinct(FunctionPaths(p, item))
    ensures forall q :: q in FunctionPaths(p, item) ==>
              (q == DirOf(p, item) && item.path != []) || IsFileIn(DirOf(p, item), item.attrs, q)
  {
    var dir := DirOf(p, item);
    AttrPathsAre(dir, item.attrs, {"report_desc"});
    hide AttrPaths, AreFree, DirOf;
    var dirs := if item.path == [] then [] else [dir];
    var attrs := AttrPaths(dir, item.attrs);
    var report := dir + ["report_desc"];
    assert report[|dir|] == "report_desc" && report[..|dir|] == dir;
    DistinctConcat(dirs, attrs);
    DistinctConcat(dirs + attrs, [report]);
  }

  lemma ConfigPathsAre(p: Paths, item: Item)
    requires item.configAttrs.Some? && AreFree(item.configAttrs.value, {})
    ensures Distinct(ConfigPaths(p, item))
    ensures forall q :: q in ConfigPaths(p, item) ==>
              || (q == ConfigDirOf(p, item) && q != p.c1)
              || (q in AttrPaths(ConfigDirOf(p, item), item.configAttrs.value)
                  && IsFileIn(ConfigDirOf(p, item), item.configAttrs.value, q))
  {
    var dir := ConfigDirOf(p, item);
    AttrPathsAre(dir, item.configAttrs.value, {});
    hide AttrPaths, AreFree, ConfigDirOf;
    var attrs := AttrPaths(dir, item.configAttrs.value);
    DistinctConcat(if dir == p.c1 then [] else [dir], attrs);
  }

  /** All paths of the item differ and lie in its place. */
  ghost predicate IsPlaced(p: Paths, item: Item, kind: Kind) {
    Distinct(PathsOf(p, item)) && forall q :: q in PathsOf(p, item) ==> IsPlace(item, kind, q)
  }

  lemma Words()
    ensures "functions" != "configs" && "functions" != "strings" && "configs" != "strings"
    ensures "UDC" != "strings" && "UDC" != "report_desc" && "lun.0" != "report_desc" && "unbind" != "bind"
  {
    assert "configs"[0] != "strings"[0];
  }

  lemma BasePlaced(p: Paths, item: Item)
    requires OnDevice(p) && IsOfKind(item, Base)
    ensures IsPlaced(p, item, Base)
  {
    Words();
    FunctionPathsAre(p, item);
    ConfigPathsAre(p, item);
    assert DirOf(p, item) == GADGET && ConfigDirOf(p, item) == C1;
    AttrPathsAre(C1, item.configAttrs.value, {});
    hide FunctionPaths, ConfigPaths, AttrPaths;
    forall q | q in FunctionPaths(p, item)
      ensures IsPlace(item, Base, q) && |q| == 6
    {
    }
    BaseConfigPlaced(p, item);
    DistinctConcat(FunctionPaths(p, item), ConfigPaths(p, item));
  }

  lemma BaseConfigPlaced(p: Paths, item: Item)
    requires OnDevice(p) && IsOfKind(item, Base)
    ensures forall q :: q in ConfigPaths(p, item) ==> IsPlace(item, Base, q) && |q| == 8
  {
    assert ConfigDirOf(p, item) == C1;
    forall q | q in ConfigPaths(p, item)
      ensures IsPlace(item, Base, q) && |q| == 8
    {
      var i :| 0 <= i < |item.configAttrs.value| && q == C1 + [item.configAttrs.value[i].name];
      assert item.configAttrs.value[i] in item.configAttrs.value && q[..7] == C1;
    }
  }

  lemma InfoPlaced(p: Paths, item: Item)
    requires OnDevice(p) && IsOfKind(item, Info)
    ensures IsPlaced(p, item, Info)
  {
    Words();
    FunctionPathsAre(p, item);
    ConfigPathsAre(p, item);
    var dir, conf := DirOf(p, item), ConfigDirOf(p, item);
    assert dir == GADGET + ["strings", "0x409"] && conf == C1 + ["strings", "0x409"];
    hide FunctionPaths, ConfigPaths, AttrPaths, DirOf, ConfigDirOf;
    assert |dir| == 7 && dir[..5] == GADGET && dir[5] == "strings";
    assert |conf| == 9 && conf[..7] == C1 && conf[7] == "strings" && conf[5] == "configs";
    forall q | q in FunctionPaths(p, item)
      ensures IsPlace(item, Info, q) && q[5] == "strings"
    {
      assert q[..7] == dir;
      assert q[..5] == q[..7][..5] && q[5] == q[..7][5];
    }
    forall q | q in ConfigPaths(p, item)
      ensures IsPlace(item, Info, q) && q[5] == "configs"
    {
      assert q[..9] == conf;
      assert q[..7] == q[..9][..7] && q[7] == q[..9][7] && q[5] == q[..9][5];
    }
    DistinctConcat(FunctionPaths(p, item), ConfigPaths(p, item));
  }

  lemma FunctionPlaced(p: Paths, item: Item)
    requires OnDevice(p) && IsOfKind(item, Function)
    ensures IsPlaced(p, item, Function)
  {
    if item.enabled {
      Words();
      FunctionPathsAre(p, item);
      var dir := DirOf(p, item);
      assert dir == GADGET + ["functions", item.device];
      assert PathsOf(p, item) == FunctionPaths(p, item);
      hide FunctionPaths, PathsOf, DirOf;
      assert |dir| == 7 && dir[..5] == GADGET && dir[5] == "functions" && dir[6] == item.device;
      forall q | q in FunctionPaths(p, item)
        ensures IsPlace(item, Function, q)
      {
        assert q[..7] == dir;
        assert q[..5] == q[..7][..5] && q[5] == q[..7][5] && q[6] == q[..7][6];
      }
    }
  }

  lemma LunPlaced(p: Paths, item: Item)
    requires OnDevice(p) && IsOfKind(item, Lun)
    ensures IsPlaced(p, item, Lun)
  {
    if item.enabled {
      FunctionPathsAre(p, item);
      var dir := DirOf(p, item);
      assert dir == GADGET + ["functions", "mass_storage.usb0", "lun.0"];
      assert PathsOf(p, item) == FunctionPaths(p, item);
      hide FunctionPaths, PathsOf, DirOf;
      assert |dir| == 8 && dir[..5] == GADGET && dir[5] == "functions" && dir[6] == "mass_storage.usb0" && dir[7] == "lun.0";
      forall q | q in FunctionPaths(p, item)
        ensures IsPlace(item, Lun, q)
      {
        assert q[..8] == dir;
        assert q[..5] == q[..8][..5] && q[5] == q[..8][5] && q[6] == q[..8][6] && q[7] == q[..8][7];
      }
    }
  }

  lemma ItemPlaced(p: Paths, item: Item, kind: Kind)
    requires OnDevice(p) && IsOfKind(item, kind)
    ensures IsPlaced(p, item, kind)
  {
    match kind
    case Base => BasePlaced(p, item);
    case Info => InfoPlaced(p, item);
    case Function => FunctionPlaced(p, item);
    case Lun => LunPlaced(p, item);
  }

  // ---- The places are apart ----

  lemma FixedAre(p: Paths, q: Path)
    requires OnDevice(p) && q in FixedPaths(p)
    ensures q == CONFIG_FS || q == C1 || q == GADGET || q == GADGET + ["UDC"] || q == DWC3 + ["unbind"] || q == DWC3 + ["bind"]
  {
  }

  lemma FixedAreDistinct(p: Paths)
    requires OnDevice(p)
    ensures Distinct(FixedPaths(p))
  {
    Words();
    var f := FixedPaths(p);
    assert f[4][5] == "unbind" && f[5][5] == "bind" && f[4][1] == "bus" && f[3][1] == "kernel" && f[5][1] == "bus";
    assert "kernel" != "bus";
  }

  lemma PlaceIsNotFixed(p: Paths, item: Item, kind: Kind, q: Path)
    requires OnDevice(p) && IsPlace(item, kind, q)
    ensures q !in FixedPaths(p)
  {
    Words();
    assert "kernel" != "bus" && GADGET[1] == "kernel" && C1[1] == "kernel" && DWC3[1] == "bus";
    if q in FixedPaths(p) {
      FixedAre(p, q);
    }
  }

  lemma PlacesDiffer(a: Item, ka: Kind, b: Item, kb: Kind, q: Path)
    requires IsOfKind(a, ka) && IsOfKind(b, kb) && (ka == kb ==> ka == Function && a.device != b.device)
    requires IsPlace(a, ka, q)
    ensures !IsPlace(b, kb, q)
  {
    Words();
    hide AreFree;
    assert IsBelow(C1, q) ==> q[5] == C1[5] == "configs";
    assert (C1 + [a.device])[..7] == C1 && (C1 + [b.device])[..7] == C1;
    assert (C1 + [a.device])[7] == a.device && (C1 + [b.device])[7] == b.device;
  }

  /** No place lies at or below the link of an enabled function. */
  lemma LinkIsFree(p: Paths, f: Item, item: Item, kind: Kind, q: Path)
    requires OnDevice(p) && f.enabled && IsOfKind(f, Function) && IsOfKind(item, kind) && IsPlace(item, kind, q)
    requires kind == Function ==> item == f || item.device != f.device
    ensures !(ConfigDirOf(p, f) <= q)
  {
    Words();
    hide AreFree;
    var link := ConfigDirOf(p, f);
    assert |link| == 8 && link[..7] == C1 && link[5] == "configs" && link[7] == f.device;
    assert (C1 + [item.device])[7] == item.device;
  }

  lemma LinkIsNotFixed(p: Paths, f: Item, q: Path)
    requires OnDevice(p) && IsOfKind(f, Function) && q in FixedPaths(p)
    ensures !(ConfigDirOf(p, f) <= q)
  {
    FixedAre(p, q);
    assert |ConfigDirOf(p, f)| == 8;
  }

  lemma ItemsApart(p: Paths, items: seq<Item>, on: Devices, m: nat, n: nat)
    requires OnDevice(p) && Fits(items, on) && m < n < 10
    ensures forall q :: q in PathsOf(p, items[m]) ==> q !in PathsOf(p, items[n])
  {
    DeviceNames();
    assert FitsAt(items[m], on, m) && FitsAt(items[n], on, n);
    hide PathsOf, IsPlace, IsOfKind;
    ItemPlaced(p, items[m], KINDS[m]);
    ItemPlaced(p, items[n], KINDS[n]);
    forall q | q in PathsOf(p, items[m])
      ensures q !in PathsOf(p, items[n])
    {
      PlacesDiffer(items[m], KINDS[m], items[n], KINDS[n], q);
    }
  }

  /** An enabled function is one of the plain functions of the list. */
  lemma FunctionIsPlain(items: seq<Item>, on: Devices, f: Item) returns (k: nat)
    requires Fits(items, on) && IsEnabledFunction(items, f)
    ensures k < 10 && items[k] == f && KINDS[k] == Function && IsOfKind(f, Function)
  {
    k :| 0 <= k < |items| && items[k] == f;
    assert FitsAt(items[k], on, k);
  }

  lemma LinkStandsAlone(p: Paths, items: seq<Item>, on: Devices, f: Item)
    requires OnDevice(p) && Fits(items, on) && IsEnabledFunction(items, f)
    ensures NothingAtOrBelow(p, items, ConfigDirOf(p, f))
  {
    var k := FunctionIsPlain(items, on, f);
    DeviceNames();
    forall m | 0 <= m < 10
      ensures FitsAt(items[m], on, m)
      ensures IsPlaced(p, items[m], KINDS[m])
      ensures KINDS[m] == Function ==> items[m] == f || items[m].device != f.device
    {
      assert FitsAt(items[m], on, m) && FitsAt(items[k], on, k);
      ItemPlaced(p, items[m], KINDS[m]);
    }
    hide PathsOf, IsPlace, FixedPaths, ConfigDirOf, IsOfKind;
    forall q | q in FixedPaths(p)
      ensures !(ConfigDirOf(p, f) <= q)
    {
      LinkIsNotFixed(p, f, q);
    }
    forall m, q | 0 <= m < 10 && q in PathsOf(p, items[m])
      ensures !(ConfigDirOf(p, f) <= q)
    {
      LinkIsFree(p, f, items[m], KINDS[m], q);
    }
  }

  /** The default configuration, with anything switched on or off and with any
      attribute values, gets in nobody's way. */
  lemma DeviceConfigIsDistinct(p: Paths, items: seq<Item>, on: Devices)
    requires OnDevice(p) && IsDeviceConfig(items, on)
    ensures DistinctItems(p, items)
  {
    hide IsDeviceConfig;
    ConfigFits(items, on);
    FixedAreDistinct(p);
    hide FixedPaths, PathsOf, ConfigDirOf, Fits;
    forall m | 0 <= m < |items|
      ensures Distinct(PathsOf(p, items[m])) && forall q :: q in PathsOf(p, items[m]) ==> q !in FixedPaths(p)
    {
      PlacedApart(p, items, on, m);
    }
    forall m, n | 0 <= m < n < |items|
      ensures forall q :: q in PathsOf(p, items[m]) ==> q !in PathsOf(p, items[n])
    {
      ItemsApart(p, items, on, m, n);
    }
    forall m, n | 0 <= m < n < |items| && IsLinked(items[m]) && IsLinked(items[n])
      ensures items[m].device != items[n].device
    {
      DevicesDiffer(items, on, m, n);
    }
    forall f | IsEnabledFunction(items, f)
      ensures NothingAtOrBelow(p, items, ConfigDirOf(p, f))
    {
      LinkStandsAlone(p, items, on, f);
    }
  }

  lemma PlacedApart(p: Paths, items: seq<Item>, on: Devices, m: nat)
    requires OnDevice(p) && Fits(items, on) && m < |items|
    ensures Distinct(PathsOf(p, items[m])) && forall q :: q in PathsOf(p, items[m]) ==> q !in FixedPaths(p)
  {
    assert FitsAt(items[m], on, m);
    ItemPlaced(p, items[m], KINDS[m]);
    hide PathsOf, FixedPaths, IsPlace, IsOfKind;
    forall q | q in PathsOf(p, items[m])
      ensures q !in FixedPaths(p)
    {
      PlaceIsNotFixed(p, items[m], KINDS[m], q);
    }
  }

  lemma DevicesDiffer(items: seq<Item>, on: Devices, m: nat, n: nat)
    requires Fits(items, on) && m < n < |items| && IsFunction(items[m]) && IsFunction(items[n])
    ensures KINDS[m] == KINDS[n] == Function && items[m].device != items[n].device
  {
    DeviceNames();
    assert FitsAt(items[m], on, m) && FitsAt(items[n], on, n);
  }

  /** The links are different places right in the configuration. */
  lemma DeviceLinksAreDistinct(p: Paths, items: seq<Item>, on: Devices)
    requires OnDevice(p) && IsDeviceConfig(items, on)
    ensures DistinctLinks(p.c1, FunctionLinks(p, items))
  {
    ConfigFits(items, on);
    hide IsDeviceConfig;
    var links := FunctionLinks(p, items);
    forall l | l in links
      ensures IsChild(p.c1, l.path)
    {
      LinksAreFunctions(p, items, l);
      var f :| IsEnabledFunction(items, f) && l == Symlink(ConfigDirOf(p, f), DirOf(p, f));
      var k := FunctionIsPlain(items, on, f);
    }
    forall i, j | 0 <= i < j < |links|
      ensures links[i].path != links[j].path
    {
      var m, n := LinkedItems(p, items, i, j);
      DevicesDiffer(items, on, m, n);
      assert FitsAt(items[m], on, m) && FitsAt(items[n], on, n);
      assert links[i].path[7] == items[m].device && links[j].path[7] == items[n].device;
    }
  }

  /** Two links come from two items in the same order. */
  lemma {:induction false} LinkedItems(p: Paths, items: seq<Item>, i: nat, j: nat) returns (m: nat, n: nat)
    requires i < j < |FunctionLinks(p, items)|
    ensures m < n < |items| && IsLinked(items[m]) && IsLinked(items[n])
    ensures FunctionLinks(p, items)[i].path == ConfigDirOf(p, items[m])
    ensures FunctionLinks(p, items)[j].path == ConfigDirOf(p, items[n])
  {
    var init := items[..|items| - 1];
    if j < |FunctionLinks(p, init)| {
      m, n := LinkedItems(p, init, i, j);
    } else {
      n := |items| - 1;
      var l := FunctionLinks(p, init)[i];
      LinksAreFunctions(p, init, l);
      var f :| IsEnabledFunction(init, f) && l == Symlink(ConfigDirOf(p, f), DirOf(p, f));
      m :| 0 <= m < |init| && init[m] == f;
    }
  }

  // ---- When the links are found in order ----

  lemma {:induction false} LessAt(a: string, b: string, k: nat)
    requires k < |a| && k < |b| && a[..k] == b[..k] && a[k] != b[k]
    ensures NameLess(a, b) <==> a[k] < b[k]
  {
    if k > 0 {
      assert a[0] == a[..k][0] && b[0] == b[..k][0];
      assert a[1..][..k - 1] == a[..k][1..] && b[1..][..k - 1] == b[..k][1..];
      LessAt(a[1..], b[1..], k - 1);
    }
  }

  /** A name comes before any longer one that starts with it, not before itself. */
  lemma {:induction false} PrefixIsLess(a: string, b: string)
    ensures NameLess(a, a + b) <==> b != ""
  {
    if a == "" {
      assert a + b == b;
    } else {
      PrefixIsLess(a[1..], b);
      assert (a + b)[1..] == a[1..] + b;
    }
  }

  /** The device names increase in the order of the items, except that audio
      comes after mass storage by name and the serial console before all. */
  lemma NamesInOrder(m: nat, n: nat)
    requires m < n < 10 && KINDS[m] == KINDS[n] == Function
    ensures NameLess(DEVICES[m], DEVICES[n]) <==> n != 9 && !(m == 6 && n == 7)
  {
    hide NameLess;
    var a, b := DEVICES[m], DEVICES[n];
    if n <= 5 {
      assert a[..7] == "hid.usb" == b[..7] && a[7] < b[7];
      LessAt(a, b, 7);
    } else {
      assert a[0] in "hum" && b[0] in "uma" && a[0] != b[0];
      LessAt(a, b, 0);
    }
  }

  /** The links stand in the order of their items. */
  lemma {:induction false} LinkPosition(p: Paths, items: seq<Item>, m: nat) returns (i: nat)
    requires m < |items| && IsLinked(items[m])
    ensures i == |FunctionLinks(p, items[..m])| < |FunctionLinks(p, items)|
    ensures FunctionLinks(p, items)[i].path == ConfigDirOf(p, items[m])
    decreases |items|
  {
    var init := items[..|items| - 1];
    if m == |items| - 1 {
      i := |FunctionLinks(p, init)|;
    } else {
      i := LinkPosition(p, init, m);
      assert init[..m] == items[..m];
    }
  }

  /** The name of a device's link is the name of the device. */
  lemma LinkName(p: Paths, items: seq<Item>, on: Devices, m: nat)
    requires OnDevice(p) && Fits(items, on) && m < 10 && IsFunction(items[m])
    ensures KINDS[m] == Function && items[m].enabled == IsOn(on, m)
    ensures var path := ConfigDirOf(p, items[m]); |path| == 8 && path[7] == DEVICES[m]
  {
    assert FitsAt(items[m], on, m);
  }

  /** The links of two enabled functions are in the order of their names if the
      names of all links increase. */
  lemma PairInOrder(p: Paths, items: seq<Item>, on: Devices, m: nat, n: nat)
    requires OnDevice(p) && Fits(items, on) && m < n < 10 && IsLinked(items[m]) && IsLinked(items[n])
    requires NamesIncrease(FunctionLinks(p, items))
    ensures NameLess(DEVICES[m], DEVICES[n])
  {
    assert |items| == 10;
    hide NameLess, FunctionLinks, NamesIncrease, Fits, ConfigDirOf;
    LinkName(p, items, on, m);
    LinkName(p, items, on, n);
    var i, j := LinksInOrder(p, items, m, n);
    NamesIncreaseAt(FunctionLinks(p, items), i, j);
  }

  /** The link of an earlier item stands before the link of a later one. */
  lemma LinksInOrder(p: Paths, items: seq<Item>, m: nat, n: nat) returns (i: nat, j: nat)
    requires m < n < |items| && IsLinked(items[m]) && IsLinked(items[n])
    ensures i < j < |FunctionLinks(p, items)|
    ensures FunctionLinks(p, items)[i].path == ConfigDirOf(p, items[m])
    ensures FunctionLinks(p, items)[j].path == ConfigDirOf(p, items[n])
  {
    hide FunctionLinks, ConfigDirOf;
    i := LinkPosition(p, items, m);
    j := LinkPosition(p, items, n);
    var before := LinkPosition(p, items[..n], m);
    assert items[..n][..m] == items[..m];
  }

  lemma NamesIncreaseAt(links: seq<Symlink>, i: nat, j: nat)
    requires NamesIncrease(links) && i < j < |links| && |links[i].path| == |links[j].path| == 8
    ensures NameLess(links[i].path[7], links[j].path[7])
  {
    hide NameLess;
  }

  lemma NamesIncreaseExactlyWhen(p: Paths, items: seq<Item>, on: Devices)
    requires OnDevice(p) && IsDeviceConfig(items, on)
    ensures NamesIncrease(FunctionLinks(p, items)) <==> !on.serialConsole && !(on.audio && on.massStorage)
  {
    ConfigFits(items, on);
    assert IsLinked(items[5]) && IsLinked(items[6]) == on.audio && IsLinked(items[7]) == on.massStorage
           && IsLinked(items[9]) == on.serialConsole;
    hide IsDeviceConfig, NameLess, FunctionLinks, Fits, ConfigDirOf;
    var links := FunctionLinks(p, items);
    if NamesIncrease(links) {
      if on.serialConsole {
        NamesInOrder(5, 9);
        PairInOrder(p, items, on, 5, 9);
      }
      if on.audio && on.massStorage {
        NamesInOrder(6, 7);
        PairInOrder(p, items, on, 6, 7);
      }
    }
    if !on.serialConsole && !(on.audio && on.massStorage) {
      forall i, j | 0 <= i < j < |links| && |links[i].path| > 0 && |links[j].path| > 0
        ensures NameLess(links[i].path[|links[i].path| - 1], links[j].path[|links[j].path| - 1])
      {
        var m, n := LinkedItems(p, items, i, j);
        LinkName(p, items, on, m);
        LinkName(p, items, on, n);
        NamesInOrder(m, n);
      }
    }
  }

  /** On a device whose links are all there, the next transaction takes them
      away and puts them back exactly when the serial console is on, or audio
      and mass storage both are. */
  lemma RelinksExactlyWhen(p: Paths, items: seq<Item>, on: Devices, fs: Fs, c: Change)
    requires OnDevice(p) && IsDeviceConfig(items, on)
    requires c.path == C1 && c.expected == SymlinksInOrder(FunctionLinks(p, items))
    requires C1 in fs.nodes && fs.nodes[C1].Dir? && HasLinks(fs, C1, FunctionLinks(p, items))
    ensures ActionOf(fs, c) == ReorderSymlinks <==> on.serialConsole || (on.audio && on.massStorage)
  {
    NamesIncreaseExactlyWhen(p, items, on);
    assert items[5] in items && IsLinked(items[5]);
    var i := LinkPosition(p, items, 5);
    hide IsDeviceConfig, FunctionLinks, HasLinks, NamesIncrease;
  }

  /** In those cases they are taken away whatever state the links are in. */
  lemma UnsortedIsAlwaysRelinked(p: Paths, items: seq<Item>, on: Devices, fs: Fs, c: Change)
    requires OnDevice(p) && IsDeviceConfig(items, on) && (on.serialConsole || (on.audio && on.massStorage))
    requires c.expected == SymlinksInOrder(FunctionLinks(p, items))
    ensures ActionOf(fs, c) == ReorderSymlinks
  {
    NamesIncreaseExactlyWhen(p, items, on);
    assert items[5] in items && IsLinked(items[5]);
    var i := LinkPosition(p, items, 5);
    hide IsDeviceConfig, FunctionLinks, HasLinks, NamesIncrease;
  }

  // ---- Configuring the device ----

  /** Configuring the gadget of the device never panics and always resolves,
      functions are only rewritten while all are unlinked, and a run that went
      to its end leaves exactly the links of the enabled functions. */
  method ConfigureDevice(p: Paths, items: seq<Item>, on: Devices, fs: Fs, answers: seq<bool>)
    returns (r: CommitResult, ghost acting: set<Key>)
    requires OnDevice(p) && IsDeviceConfig(items, on)
    ensures r.Committed? && r.resolution.Plan?
    ensures IsGadgetPlan(p, items, true, true, fs, acting, r.resolution.changes) && r.end == StateAt(fs, r.log, |r.log|)
    ensures IsRun(fs, r.resolution.changes, r.log) && (r.ok <==> HasFinished(r.resolution.changes, r.log))
    ensures forall i, f :: 0 <= i < |r.log| && IsGuarded(r.log[i].change, acting) && IsEnabledFunction(items, f) ==>
              ConfigDirOf(p, f) !in r.log[i].before.nodes
    ensures forall i, j :: 0 <= i < |r.log| && 0 <= j < |r.log| && r.log[j].action.ReorderSymlinks?
              ==> (IsGuarded(r.log[i].change, acting) ==> i < j)
    ensures r.ok ==> HasLinks(r.end, C1, FunctionLinks(p, items))
  {
    assert items[5].enabled && IsFunction(items[5]);
    DeviceConfigIsDistinct(p, items, on);
    DeviceLinksAreDistinct(p, items, on);
    hide IsDeviceConfig, DistinctItems, DistinctLinks, FunctionLinks, HasLinks, HasFinished, IsRun, NoClashes, Body, Whole;
    r, acting := ConfigureUsbGadget(p, items, true, fs, answers);
    DistinctItemsDoNotClash(p, items, true, true);
  }
}
