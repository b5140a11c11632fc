/**
 * Choosing the mass-storage interface of a USB device and the bulk
 * endpoints of that interface. Devices, interfaces and endpoints are the
 * descriptor fields the rules look at; an interface or endpoint is named by
 * its index, as `getInterface(i)` / `getEndpoint(i)` name them.
 */
module UsbSelection {
  import opened Wrappers

  /** USB class code 08h: Mass Storage. */
  const ClassMassStorage: int := 8
  /** Mass Storage interface protocol 50h: Bulk-Only Transport. */
  const ProtocolBulkOnly: int := 0x50
  /** Endpoint transfer type 2: bulk. */
  const XferBulk: int := 2
  /** Endpoint direction bit: device to host. */
  const DirIn: int := 0x80

  datatype Endpoint = Endpoint(transferType: int, direction: int)
  datatype Interface = Interface(interfaceClass: int, interfaceProtocol: int, endpoints: seq<Endpoint>)
  datatype Device = Device(deviceClass: int, interfaces: seq<Interface>)

  predicate IsMassStorage(intf: Interface) {
    intf.interfaceClass == ClassMassStorage
  }

  predicate IsBulkOnlyStorage(intf: Interface) {
    intf.interfaceClass == ClassMassStorage && intf.interfaceProtocol == ProtocolBulkOnly
  }

  predicate IsBulkIn(ep: Endpoint) {
    ep.transferType == XferBulk && ep.direction == DirIn
  }

  predicate IsBulkOut(ep: Endpoint) {
    ep.transferType == XferBulk && ep.direction != DirIn
  }

  /** Some interface from index `from` on is a mass-storage interface (the loop of `hasStorageInterface`). */
  function AnyMassStorage(interfaces: seq<Interface>, from: nat): (b: bool)
    requires from <= |interfaces|
    ensures b <==> exists i :: from <= i < |interfaces| && IsMassStorage(interfaces[i])
    decreases |interfaces| - from
  {
    if from == |interfaces| then false
    else if IsMassStorage(interfaces[from]) then true
    else AnyMassStorage(interfaces, from + 1)
  }

  /** The device is worth opening: its own class, or one of its interfaces' classes, is Mass Storage. */
  function HasStorageInterface(d: Device): (b: bool)
    ensures b <==> d.deviceClass == ClassMassStorage
                   || exists i :: 0 <= i < |d.interfaces| && IsMassStorage(d.interfaces[i])
  {
    if d.deviceClass == ClassMassStorage then true
    else AnyMassStorage(d.interfaces, 0)
  }

  /** The first index from `from` on whose interface satisfies p (one early-return loop). */
  function FirstFrom(interfaces: seq<Interface>, p: Interface -> bool, from: nat): (r: Option<nat>)
    requires from <= |interfaces|
    ensures r.Some? ==> from <= r.value < |interfaces| && p(interfaces[r.value])
                        && forall j :: from <= j < r.value ==> !p(interfaces[j])
    ensures r.None? ==> forall j :: from <= j < |interfaces| ==> !p(interfaces[j])
    decreases |interfaces| - from
  {
    if from == |interfaces| then None
    else if p(interfaces[from]) then Some(from)
    else FirstFrom(interfaces, p, from + 1)
  }

  /**
   * The interface to claim: the first Bulk-Only mass-storage interface,
   * else the first mass-storage interface, else interface 0, else none.
   */
  function FindStorageInterface(d: Device): (r: Option<nat>)
    ensures r.None? <==> |d.interfaces| == 0
    ensures r.Some? ==> r.value < |d.interfaces|
  {
    match FirstFrom(d.interfaces, IsBulkOnlyStorage, 0)
    case Some(i) => Some(i)
    case None =>
      match FirstFrom(d.interfaces, IsMassStorage, 0)
      case Some(i) => Some(i)
      case None => if |d.interfaces| > 0 then Some(0) else None
  }

  /** The three tiers of the search, each with the earlier tiers failing. */
  lemma FindStorageInterfaceSpec(d: Device)
    ensures var r := FindStorageInterface(d); var ifs := d.interfaces;
      && ((exists i :: 0 <= i < |ifs| && IsBulkOnlyStorage(ifs[i])) ==>
            r.Some? && IsBulkOnlyStorage(ifs[r.value])
            && forall j :: 0 <= j < r.value ==> !IsBulkOnlyStorage(ifs[j]))
      && ((forall i :: 0 <= i < |ifs| ==> !IsBulkOnlyStorage(ifs[i]))
          && (exists i :: 0 <= i < |ifs| && IsMassStorage(ifs[i])) ==>
            r.Some? && IsMassStorage(ifs[r.value])
            && forall j :: 0 <= j < r.value ==> !IsMassStorage(ifs[j]))
      && ((forall i :: 0 <= i < |ifs| ==> !IsMassStorage(ifs[i])) && |ifs| > 0 ==> r == Some(0))
  {
  }

  /** Whenever HasStorageInterface finds a mass-storage interface, the search returns one. */
  lemma FoundInterfaceIsStorage(d: Device)
    requires exists i :: 0 <= i < |d.interfaces| && IsMassStorage(d.interfaces[i])
    ensures FindStorageInterface(d).Some?
    ensures IsMassStorage(d.interfaces[FindStorageInterface(d).value])
  {
  }

  /**
   * Scans the endpoints in order and keeps overwriting the IN and the OUT
   * candidate, so each ends as the LAST bulk endpoint of its direction.
   */
  method FindEndpoints(intf: Interface) returns (epIn: Option<nat>, epOut: Option<nat>)
    ensures epIn.Some? ==> epIn.value < |intf.endpoints| && IsBulkIn(intf.endpoints[epIn.value])
                           && forall j :: epIn.value < j < |intf.endpoints| ==> !IsBulkIn(intf.endpoints[j])
    ensures epIn.None? ==> forall j :: 0 <= j < |intf.endpoints| ==> !IsBulkIn(intf.endpoints[j])
    ensures epOut.Some? ==> epOut.value < |intf.endpoints| && IsBulkOut(intf.endpoints[epOut.value])
                            && forall j :: epOut.value < j < |intf.endpoints| ==> !IsBulkOut(intf.endpoints[j])
    ensures epOut.None? ==> forall j :: 0 <= j < |intf.endpoints| ==> !IsBulkOut(intf.endpoints[j])
  {
    var eps := intf.endpoints;
    epIn, epOut := None, None;
    for i := 0 to |eps|
      invariant epIn.Some? ==> epIn.value < i && IsBulkIn(eps[epIn.value])
                               && forall j :: epIn.value < j < i ==> !IsBulkIn(eps[j])
      invariant epIn.None? ==> forall j :: 0 <= j < i ==> !IsBulkIn(eps[j])
      invariant epOut.Some? ==> epOut.value < i && IsBulkOut(eps[epOut.value])
                                && forall j :: epOut.value < j < i ==> !IsBulkOut(eps[j])
      invariant epOut.None? ==> forall j :: 0 <= j < i ==> !IsBulkOut(eps[j])
    {
      var ep := eps[i];
      if ep.transferType == XferBulk {
        if ep.direction == DirIn {
          epIn := Some(i);
        } else {
          epOut := Some(i);
        }
      }
    }
  }
}
