/**
 * Finding a device by its dotted address (src/blueapi/core/device_lookup.py,
 * src/blueapi/core/context.py, src/blueapi/service/interface.py).
 */
module DeviceLookup {
  import opened Basics

  type ObjectId = nat

  /**
   * What lookup can see of an object. A missing attribute and one that is None look the same.
   * A device may lack a name, and may count as false, as an empty collection of devices does.
   */
  datatype Component =
    | Dictionary(entries: map<string, ObjectId>)
    | Device(name: Option<string>, falsy: bool, protocols: seq<string>, attributes: map<string, ObjectId>)
    | Other

  /** Every object of the server; objects may refer to each other in cycles. */
  type Objects = ObjectId -> Component

  type Address = seq<string>

  datatype LookupError = EmptyAddress | NotSearchable | NotADevice

  type Lookup = Result<Option<ObjectId>, LookupError>

  function Child(objects: Objects, obj: ObjectId, name: string): (child: Option<ObjectId>) {
    match objects(obj)
    case Dictionary(entries) => if name in entries then Some(entries[name]) else None
    case Device(_, _, _, attributes) => if name in attributes then Some(attributes[name]) else None
    case Other => None
  }

  function FindComponent(objects: Objects, obj: Option<ObjectId>, addr: Address): (found: Lookup)
    decreases |addr|
  {
    if addr == [] then Err(EmptyAddress)
    else if obj.None? || objects(obj.value).Other? then Err(NotSearchable)
    else
      var component := Child(objects, obj.value, addr[0]);
      if |addr| > 1 then FindComponent(objects, component, addr[1..])
      else if component.None? || objects(component.value).Device? then Ok(component)
      else Err(NotADevice)
  }

  // ---------- what lookup finds ----------

  /** A dict holds what is under a key, a device what is under an attribute. */
  ghost predicate Holds(objects: Objects, obj: ObjectId, name: string, child: ObjectId) {
    || (objects(obj).Dictionary? && name in objects(obj).entries && objects(obj).entries[name] == child)
    || (objects(obj).Device? && name in objects(obj).attributes && objects(obj).attributes[name] == child)
  }

  ghost predicate HoldsNone(objects: Objects, obj: ObjectId, name: string) {
    forall child: ObjectId :: !Holds(objects, obj, name, child)
  }

  lemma ChildIsHeld(objects: Objects, obj: ObjectId, name: string)
    ensures forall child: ObjectId :: Child(objects, obj, name) == Some(child) <==> Holds(objects, obj, name, child)
    ensures Child(objects, obj, name).None? <==> HoldsNone(objects, obj, name)
  {
    var child := Child(objects, obj, name);
    if child.Some? {
      assert Holds(objects, obj, name, child.value);
    }
  }

  /** The objects met on the way: each one holds the next under the next name of the address. */
  ghost predicate Leads(objects: Objects, addr: Address, path: seq<ObjectId>) {
    && |path| == |addr| + 1
    && forall i | 0 <= i < |addr| :: Holds(objects, path[i], addr[i], path[i + 1])
  }

  ghost predicate Reaches(objects: Objects, obj: ObjectId, addr: Address, end: ObjectId) {
    exists path :: Leads(objects, addr, path) && path[0] == obj && path[|addr|] == end
  }

  lemma ReachesNext(objects: Objects, obj: ObjectId, addr: Address, end: ObjectId)
    requires addr != []
    ensures Reaches(objects, obj, addr, end) <==>
            Child(objects, obj, addr[0]).Some? && Reaches(objects, Child(objects, obj, addr[0]).value, addr[1..], end)
  {
    ChildIsHeld(objects, obj, addr[0]);
    if path :| Leads(objects, addr, path) && path[0] == obj && path[|addr|] == end {
      assert Holds(objects, path[0], addr[0], path[1]);
      assert forall i | 0 <= i < |addr| - 1 :: addr[1..][i] == addr[i + 1] && path[1..][i] == path[i + 1];
      assert Leads(objects, addr[1..], path[1..]) && path[1..][|addr| - 1] == end;
    }
    var child := Child(objects, obj, addr[0]);
    if child.Some? {
      if path :| Leads(objects, addr[1..], path) && path[0] == child.value && path[|addr| - 1] == end {
        var longer := [obj] + path;
        assert forall i | 0 < i < |addr| :: addr[i] == addr[1..][i - 1] && longer[i] == path[i - 1];
        assert Leads(objects, addr, longer);
      }
    }
  }

  /** A device is found exactly when the address leads to it, whatever kind of object lies on the way. */
  lemma {:induction false} FindsWhatIsThere(objects: Objects, obj: ObjectId, addr: Address, end: ObjectId)
    requires addr != []
    ensures FindComponent(objects, Some(obj), addr) == Ok(Some(end)) <==>
            Reaches(objects, obj, addr, end) && objects(end).Device?
    decreases |addr|
  {
    ReachesNext(objects, obj, addr, end);
    var child := Child(objects, obj, addr[0]);
    if |addr| > 1 {
      if child.Some? {
        FindsWhatIsThere(objects, child.value, addr[1..], end);
      }
    } else if child.Some? {
      ReachesNothing(objects, child.value, end);
    }
  }

  lemma ReachesNothing(objects: Objects, obj: ObjectId, end: ObjectId)
    ensures Reaches(objects, obj, [], end) <==> obj == end
  {
    if obj == end {
      assert Leads(objects, [], [obj]);
    }
  }

  /** Everything but the last name is there and can be searched. */
  ghost predicate LastMissing(objects: Objects, obj: ObjectId, addr: Address)
    requires addr != []
  {
    exists last ::
      && Reaches(objects, obj, addr[..|addr| - 1], last)
      && !objects(last).Other? && HoldsNone(objects, last, addr[|addr| - 1])
  }

  /** None is the answer only when everything but the last name is there and can be searched. */
  lemma {:induction false} MissingOnlyAtTheEnd(objects: Objects, obj: ObjectId, addr: Address)
    requires addr != []
    ensures FindComponent(objects, Some(obj), addr) == Ok(None) <==>
            LastMissing(objects, obj, addr)
    decreases |addr|
  {
    var child := Child(objects, obj, addr[0]);
    ChildIsHeld(objects, obj, addr[0]);
    if |addr| == 1 {
      ReachesNothing(objects, obj, obj);
      forall last | Reaches(objects, obj, addr[..0], last) ensures last == obj {
        ReachesNothing(objects, obj, last);
      }
    } else {
      var front := addr[..|addr| - 1];
      assert front[1..] == addr[1..][..|addr| - 2];
      forall last
        ensures Reaches(objects, obj, front, last) <==> child.Some? && Reaches(objects, child.value, front[1..], last) {
        ReachesNext(objects, obj, front, last);
      }
      if child.Some? {
        MissingOnlyAtTheEnd(objects, child.value, addr[1..]);
      }
    }
  }

  /** An address is empty, or leads to something that is no device, exactly when the lookup says so. */
  lemma {:induction false} FailsAtTheEnd(objects: Objects, obj: ObjectId, addr: Address)
    ensures FindComponent(objects, Some(obj), addr) == Err(EmptyAddress) <==> addr == []
    ensures FindComponent(objects, Some(obj), addr) == Err(NotADevice) <==>
            addr != [] && exists end :: Reaches(objects, obj, addr, end) && !objects(end).Device?
    decreases |addr|
  {
    if addr != [] {
      forall end ensures Reaches(objects, obj, addr, end) <==>
          Child(objects, obj, addr[0]).Some? && Reaches(objects, Child(objects, obj, addr[0]).value, addr[1..], end)
      {
        ReachesNext(objects, obj, addr, end);
      }
      var child := Child(objects, obj, addr[0]);
      if child.Some? && |addr| > 1 {
        FailsAtTheEnd(objects, child.value, addr[1..]);
      } else if child.Some? {
        forall end ensures Reaches(objects, child.value, [], end) <==> child.value == end {
          ReachesNothing(objects, child.value, end);
        }
      }
    }
  }

  /** In every other case the way ended before the last name, or at something that cannot be searched. */
  lemma OtherwiseNotSearchable(objects: Objects, obj: ObjectId, addr: Address)
    requires addr != []
    ensures FindComponent(objects, Some(obj), addr) == Err(NotSearchable) <==>
            !LastMissing(objects, obj, addr) && forall end :: !Reaches(objects, obj, addr, end)
  {
    MissingOnlyAtTheEnd(objects, obj, addr);
    FailsAtTheEnd(objects, obj, addr);
    var found := FindComponent(objects, Some(obj), addr);
    match found
    case Ok(None) => assert LastMissing(objects, obj, addr);
    case Ok(Some(end)) =>
      FindsWhatIsThere(objects, obj, addr, end);
      assert Reaches(objects, obj, addr, end);
    case Err(NotADevice) =>
      var end :| Reaches(objects, obj, addr, end) && !objects(end).Device?;
    case Err(EmptyAddress) =>
    case Err(NotSearchable) =>
      forall end ensures !Reaches(objects, obj, addr, end) {
        FindsWhatIsThere(objects, obj, addr, end);
      }
  }

  /** Past a device, lookup goes on as if it had started there. */
  lemma {:induction false} LookupComposes(objects: Objects, obj: Option<ObjectId>, front: Address, rest: Address)
    requires rest != []
    requires FindComponent(objects, obj, front).Ok?
    ensures FindComponent(objects, obj, front + rest) ==
            FindComponent(objects, FindComponent(objects, obj, front).value, rest)
    decreases |front|
  {
    assert (front + rest)[0] == front[0] && (front + rest)[1..] == front[1..] + rest;
    if |front| > 1 {
      LookupComposes(objects, Child(objects, obj.value, front[0]), front[1..], rest);
    } else {
      assert front[1..] + rest == rest;
    }
  }

  // ---------- dotted names ----------

  function Split(s: string): (parts: seq<string>) {
    if s == "" then [""]
    else
      var parts := Split(s[1..]);
      if s[0] == '.' then [""] + parts
      else if parts == [] then [s]
      else [[s[0]] + parts[0]] + parts[1..]
  }

  function Join(parts: seq<string>): (s: string) {
    if parts == [] then ""
    else if |parts| == 1 then parts[0]
    else Join(parts[..|parts| - 1]) + "." + parts[|parts| - 1]
  }

  predicate DotFree(s: string) {
    '.' !in s
  }

  lemma JoinFront(first: string, rest: seq<string>)
    requires rest != []
    ensures Join([first] + rest) == first + "." + Join(rest)
  {
    var all := [first] + rest;
    if |rest| == 1 {
      assert all[..1] == [first];
    } else {
      JoinFront(first, rest[..|rest| - 1]);
      assert all[..|all| - 1] == [first] + rest[..|rest| - 1];
    }
  }

  lemma {:induction false} SplitParts(s: string)
    ensures Split(s) != [] && forall i | 0 <= i < |Split(s)| :: DotFree(Split(s)[i])
  {
    if s != "" {
      SplitParts(s[1..]);
    }
  }

  lemma JoinHead(head: string, first: string, rest: seq<string>)
    ensures Join([head + first] + rest) == head + Join([first] + rest)
  {
    if rest == [] {
      assert [head + first] + rest == [head + first] && [first] + rest == [first];
    } else {
      JoinFront(head + first, rest);
      JoinFront(first, rest);
      assert head + first + "." + Join(rest) == head + (first + "." + Join(rest));
    }
  }

  /** Joining what was split gives the name back. */
  lemma {:induction false} JoinOfSplit(s: string)
    ensures Join(Split(s)) == s
  {
    if s != "" {
      JoinOfSplit(s[1..]);
      SplitParts(s[1..]);
      var parts := Split(s[1..]);
      if s[0] == '.' {
        JoinFront("", parts);
      } else {
        JoinHead([s[0]], parts[0], parts[1..]);
        assert [parts[0]] + parts[1..] == parts;
        assert [s[0]] + s[1..] == s;
      }
    }
  }

  lemma {:induction false} SplitOne(s: string)
    requires DotFree(s)
    ensures Split(s) == [s]
  {
    if s != "" {
      assert forall c | c in s[1..] :: c in s;
      SplitOne(s[1..]);
      assert [s[0]] + s[1..] == s;
    }
  }

  lemma {:induction false} SplitFirst(first: string, s: string)
    requires DotFree(first)
    ensures Split(first + "." + s) == [first] + Split(s)
  {
    var all := first + "." + s;
    if first == "" {
      assert all[1..] == s;
    } else {
      assert all[1..] == first[1..] + "." + s;
      assert forall c | c in first[1..] :: c in first;
      SplitFirst(first[1..], s);
      assert [first[0]] + first[1..] == first;
    }
  }

  lemma {:induction false} SplitOfDotFree(parts: seq<string>)
    requires parts != [] && forall i | 0 <= i < |parts| :: DotFree(parts[i])
    ensures Split(Join(parts)) == parts
  {
    if |parts| == 1 {
      SplitOne(parts[0]);
    } else {
      SplitOfDotFree(parts[1..]);
      JoinFront(parts[0], parts[1..]);
      SplitFirst(parts[0], Join(parts[1..]));
      assert parts == [parts[0]] + parts[1..];
    }
  }

  /** Splitting what was joined gives the parts back exactly when there are parts, none holding a dot. */
  lemma SplitOfJoin(parts: seq<string>)
    ensures Split(Join(parts)) == parts <==> parts != [] && forall i | 0 <= i < |parts| :: DotFree(parts[i])
  {
    SplitParts(Join(parts));
    if parts != [] && forall i | 0 <= i < |parts| :: DotFree(parts[i]) {
      SplitOfDotFree(parts);
    }
  }

  // ---------- the server ----------

  const UNKNOWN_NAME := "UNKNOWN"

  datatype DeviceModel = DeviceModel(name: string, protocols: seq<string>)

  /** The registered devices are the entries of `root`; `listing` is the order they are listed in. */
  datatype Server = Server(objects: Objects, root: ObjectId, listing: seq<string>) {

    ghost predicate Valid() {
      && objects(root).Dictionary?
      && (forall key | key in listing :: key in objects(root).entries)
      && (forall key | key in objects(root).entries :: key in listing && objects(objects(root).entries[key]).Device?)
    }

    function ModelOf(id: ObjectId): (model: DeviceModel)
      requires objects(id).Device?
    {
      var device := objects(id);
      DeviceModel(if device.name.Some? then device.name.value else UNKNOWN_NAME, device.protocols)
    }

    function Find(addr: Address): (found: Lookup) {
      FindComponent(objects, Some(root), addr)
    }

    /** The models of all registered devices, in order. */
    function GetDevices(): (models: seq<DeviceModel>)
      requires Valid()
    {
      seq(|listing|, i requires 0 <= i < |listing| => ModelOf(objects(root).entries[listing[i]]))
    }

    function GetDevice(name: string): (r: Result<DeviceModel, ServerError>) {
      match Find(Split(name))
      case Ok(None) => Err(NotFound)
      case Ok(Some(id)) =>
        FoundIsDevice(objects, Some(root), Split(name));
        if objects(id).falsy then Err(NotFound) else Ok(ModelOf(id))
      case Err(_) => Err(ServerFailure)
    }
  }

  datatype ServerError = NotFound | ServerFailure

  lemma FoundIsDevice(objects: Objects, obj: Option<ObjectId>, addr: Address)
    ensures var r := FindComponent(objects, obj, addr); r.Ok? && r.value.Some? ==> objects(r.value.value).Device?
    decreases |addr|
  {
    if |addr| > 1 && obj.Some? {
      FoundIsDevice(objects, Child(objects, obj.value, addr[0]), addr[1..]);
    }
  }

  /** What a client is told of a device: its own name, or that it has none, and the protocols it conforms to. */
  ghost predicate Describes(model: DeviceModel, device: Component)
    requires device.Device?
  {
    && model.protocols == device.protocols
    && model.name == match device.name case Some(own) => own case None => "UNKNOWN"
  }

  ghost predicate LeadsToDevice(server: Server, name: string, id: ObjectId) {
    Reaches(server.objects, server.root, Split(name), id) && server.objects(id).Device?
  }

  /** A request for a device is answered with it exactly if its name leads to one that counts as true. */
  lemma ServedExactly(server: Server, name: string, model: DeviceModel)
    ensures server.GetDevice(name) == Ok(model) <==>
            exists id :: LeadsToDevice(server, name, id) && !server.objects(id).falsy
              && Describes(model, server.objects(id))
    ensures server.GetDevice(name) == Err(NotFound) <==>
            || server.Find(Split(name)) == Ok(None)
            || exists id :: LeadsToDevice(server, name, id) && server.objects(id).falsy
    ensures server.GetDevice(name) == Err(ServerFailure) <==> server.Find(Split(name)).Err?
  {
    SplitParts(name);
    var found := server.Find(Split(name));
    forall id: ObjectId ensures found == Ok(Some(id)) <==> LeadsToDevice(server, name, id) {
      FindsWhatIsThere(server.objects, server.root, Split(name), id);
    }
    FoundIsDevice(server.objects, Some(server.root), Split(name));
    if found.Ok? && found.value.Some? {
      assert LeadsToDevice(server, name, found.value.value);
    }
  }

  /** The listing describes each registered device, in order. */
  lemma ListsExactly(server: Server)
    requires server.Valid()
    ensures |server.GetDevices()| == |server.listing|
    ensures forall i | 0 <= i < |server.listing| ::
              Describes(server.GetDevices()[i], server.objects(server.objects(server.root).entries[server.listing[i]]))
  {
  }
}
