/** The client's device references: attribute chains over a cache (src/blueapi/client/client.py). */
module DeviceReferences {
  import opened Basics
  import opened DeviceLookup

  datatype DeviceRef = DeviceRef(name: string, model: DeviceModel)

  /** Plain: the attribute is an ordinary one of the client object and has nothing to do with devices. */
  datatype AccessError = Plain | NoSuchDevice | RemoteError

  predicate Private(name: string) {
    |name| > 0 && name[0] == '_'
  }

  predicate Special(name: string) {
    |name| > 1 && name[0] == '_' && name[1] == '_'
  }

  predicate PlainOnCache(name: string) {
    name == "_rest" || name == "_cache" || Special(name)
  }

  predicate PlainOnRef(name: string) {
    name == "name" || name == "model" || name == "_cache" || Special(name)
  }

  // ---------- agreement with the server ----------

  /** The address leads the server to a device with this model. */
  predicate Shows(server: Server, addr: Address, model: DeviceModel) {
    var found := server.Find(addr);
    && found.Ok? && found.value.Some?
    && server.objects(found.value.value).Device?
    && server.ModelOf(found.value.value) == model
  }

  predicate Sound(server: Server, ref: DeviceRef) {
    Shows(server, Split(ref.name), ref.model)
  }

  function Registered(server: Server, key: string): (model: DeviceModel)
    requires server.Valid() && key in server.objects(server.root).entries
  {
    server.ModelOf(server.objects(server.root).entries[key])
  }

  /** Every device is registered under its own name. */
  ghost predicate OwnKeys(server: Server)
    requires server.Valid()
  {
    forall key | key in server.objects(server.root).entries :: Registered(server, key).name == key
  }

  ghost predicate DotFreeNames(server: Server)
    requires server.Valid()
  {
    forall key | key in server.objects(server.root).entries :: DotFree(Registered(server, key).name)
  }

  /** The device is registered under this name, which is its own. */
  ghost predicate OwnKey(server: Server, name: string)
    requires server.Valid()
  {
    name in server.objects(server.root).entries && Registered(server, name).name == name
  }

  /** No two registered devices have this own name. */
  ghost predicate OnlyOne(server: Server, name: string)
    requires server.Valid()
  {
    forall a, b | a in server.objects(server.root).entries && b in server.objects(server.root).entries ::
      Registered(server, a).name == name && Registered(server, b).name == name ==> a == b
  }

  /** No device of the server is called like an attribute that the cache itself relies on. */
  ghost predicate KeepsAttributes(server: Server) {
    forall id | server.objects(id).Device? :: !PlainOnCache(server.ModelOf(id).name)
  }

  function Listed(server: Server): (names: set<string>)
    requires server.Valid()
  {
    set i | 0 <= i < |server.GetDevices()| :: server.GetDevices()[i].name
  }

  // ---------- the cache ----------

  type Refs = map<string, DeviceRef>

  /** References are kept under their full names, and their attributes are called as the devices call themselves. */
  ghost predicate WellKeyed(cache: Refs, attributes: Refs) {
    && (forall name | name in cache :: cache[name].name == name)
    && (forall name | name in attributes ::
          && attributes[name].model.name == name
          && attributes[name].name in cache && cache[attributes[name].name] == attributes[name])
  }

  /** What is cached was listed or fetched, never both, and nothing was fetched twice. */
  ghost predicate History(server: Server, cache: Refs, fetched: seq<string>)
    requires server.Valid()
  {
    && Distinct(fetched)
    && (forall i | 0 <= i < |fetched| :: fetched[i] in cache && fetched[i] !in Listed(server))
    && (forall name | name in cache :: name in Listed(server) || name in fetched)
  }

  /** What was fetched is what the server finds. */
  ghost predicate AllSound(server: Server, cache: Refs)
    requires server.Valid()
  {
    forall name | name in cache && name !in Listed(server) :: Sound(server, cache[name])
  }

  /** What was listed is some registered device of that name. */
  ghost predicate FromListing(server: Server, cache: Refs)
    requires server.Valid()
  {
    forall name | name in cache && name in Listed(server) :: IsListed(server, cache[name])
  }

  ghost predicate IsListed(server: Server, ref: DeviceRef)
    requires server.Valid()
  {
    exists key :: key in server.objects(server.root).entries && Registered(server, key).name == ref.name
                  && Registered(server, key) == ref.model
  }

  /** A name that is cached, or that the server would answer for. */
  predicate Available(server: Server, cache: Refs, name: string) {
    name in cache || server.GetDevice(name).Ok?
  }

  predicate StartsAt(server: Server, attributes: Refs, cache: Refs, name: string) {
    !PlainOnCache(name) && (name in attributes || (!Private(name) && Available(server, cache, name)))
  }

  predicate GoesOn(server: Server, cache: Refs, full: string, name: string) {
    !PlainOnRef(name) && !Private(name) && Available(server, cache, full + "." + name)
  }

  ghost predicate OnlyServed(server: Server, below: Refs, above: Refs) {
    && (forall name | name in below :: name in above && above[name] == below[name])
    && (forall name | name in above && name !in below :: server.GetDevice(name).Ok?)
  }

  lemma FetchKeeps(server: Server, cache: Refs, attributes: Refs, fetched: seq<string>, device: DeviceRef)
    requires server.Valid() && WellKeyed(cache, attributes) && History(server, cache, fetched)
    requires Listed(server) <= cache.Keys && device.name !in cache
    ensures WellKeyed(cache[device.name := device], attributes[device.model.name := device])
    ensures History(server, cache[device.name := device], fetched + [device.name])
  {
  }

  method ReferAll(models: seq<DeviceModel>) returns (cache: Refs)
    ensures FromModels(cache, models, |models|)
  {
    cache := map[];
    for i := 0 to |models|
      invariant FromModels(cache, models, i)
    {
      cache := cache[models[i].name := DeviceRef(models[i].name, models[i])];
    }
  }

  method ReferPublic(models: seq<DeviceModel>, cache: Refs) returns (attributes: Refs)
    requires FromModels(cache, models, |models|)
    ensures Mirrors(cache, attributes, models, |models|)
  {
    attributes := map[];
    for i := 0 to |models|
      invariant Mirrors(cache, attributes, models, i)
    {
      var name := models[i].name;
      if !Private(name) {
        attributes := attributes[name := cache[name]];
      }
    }
  }

  class DeviceCache {
    const server: Server
    var cache: Refs
    var attributes: Refs
    /** Names that the server was asked for and knew, in order. */
    ghost var fetched: seq<string>

    ghost predicate Valid()
      reads this
    {
      && server.Valid() && KeepsAttributes(server)
      && WellKeyed(cache, attributes)
      && Listed(server) <= cache.Keys && History(server, cache, fetched)
      && AllSound(server, cache) && FromListing(server, cache)
    }

    constructor (server: Server)
      requires server.Valid() && KeepsAttributes(server)
      ensures Valid() && this.server == server && fetched == []
      ensures cache.Keys == Listed(server)
      ensures forall name | name in attributes :: !Private(name)
      ensures forall name | name in cache && !Private(name) :: name in attributes && attributes[name] == cache[name]
    {
      this.server := server;
      fetched := [];
      var models := server.GetDevices();
      var listed := ReferAll(models);
      var public := ReferPublic(models, listed);
      cache := listed;
      attributes := public;
      ListedAreCached(server, listed, public);
    }

    /** A name is asked for until the server knows it, and then never again; failing changes nothing. */
    method GetItem(name: string) returns (r: Result<DeviceRef, AccessError>)
      requires Valid()
      modifies this
      ensures Valid()
      ensures r.Ok? <==> Available(server, old(cache), name)
      ensures r.Ok? ==> name in cache && r.value == cache[name]
      ensures r.Err? || name in old(cache) ==> unchanged(this)
      ensures r.Ok? && name !in old(cache) ==>
                && r.value == DeviceRef(name, server.GetDevice(name).value)
                && cache == old(cache)[name := r.value]
                && attributes == old(attributes)[r.value.model.name := r.value]
                && fetched == old(fetched) + [name]
      ensures r.Err? ==> r.error == if server.GetDevice(name) == Err(NotFound) then NoSuchDevice else RemoteError
    {
      if name in cache {
        return Ok(cache[name]);
      }
      var response := server.GetDevice(name);
      match response
      case Ok(model) =>
        ServedIsSound(server, name);
        var device := DeviceRef(name, model);
        FetchKeeps(server, cache, attributes, fetched, device);
        cache := cache[name := device];
        attributes := attributes[model.name := device];
        fetched := fetched + [name];
        return Ok(device);
      case Err(NotFound) => return Err(NoSuchDevice);
      case Err(ServerFailure) => return Err(RemoteError);
    }

    method GetAttribute(name: string) returns (r: Result<DeviceRef, AccessError>)
      requires Valid()
      modifies this
      ensures Valid()
      ensures r.Ok? <==> StartsAt(server, old(attributes), old(cache), name)
      ensures r.Ok? ==> var start := Start(old(attributes), name); start in cache && r.value == cache[start]
      ensures OnlyServed(server, old(cache), cache)
      ensures r.Err? ==> unchanged(this)
      ensures r == Err(Plain) <==>
                name == "_rest" || name == "_cache" || (|name| > 1 && name[0] == '_' && name[1] == '_')
      ensures r != Err(Plain) && name in old(attributes) ==> r == Ok(old(attributes)[name])
      ensures r != Err(Plain) && name !in old(attributes) && |name| > 0 && name[0] == '_' ==> r == Err(NoSuchDevice)
    {
      if PlainOnCache(name) {
        return Err(Plain);
      }
      if name in attributes {
        return Ok(attributes[name]);
      }
      if Private(name) {
        return Err(NoSuchDevice);
      }
      r := GetItem(name);
    }

    method GetChild(ref: DeviceRef, name: string) returns (r: Result<DeviceRef, AccessError>)
      requires Valid()
      modifies this
      ensures Valid()
      ensures r.Ok? <==> GoesOn(server, old(cache), ref.name, name)
      ensures r.Ok? ==> var full := ref.name + "." + name; full in cache && r.value == cache[full]
      ensures OnlyServed(server, old(cache), cache)
      ensures r.Err? ==> unchanged(this)
      ensures r == Err(Plain) <==>
                name == "name" || name == "model" || name == "_cache"
                || (|name| > 1 && name[0] == '_' && name[1] == '_')
      ensures r != Err(Plain) && |name| > 0 && name[0] == '_' ==> r == Err(NoSuchDevice)
    {
      if PlainOnRef(name) {
        return Err(Plain);
      }
      if Private(name) {
        return Err(NoSuchDevice);
      }
      r := GetItem(ref.name + "." + name);
    }

    /**
     * The attribute chain names[0].names[1]...: it stands for the joined name unless its first name is
     * that of a device known by another address. It succeeds exactly when each step is available.
     */
    method Chain(names: Address) returns (r: Result<DeviceRef, AccessError>)
      requires Valid() && names != []
      modifies this
      ensures Valid() && OnlyServed(server, old(cache), cache)
      ensures r.Ok? <==> Succeeds(server, old(attributes), old(cache), names)
      ensures r.Ok? ==> var full := FullName(old(attributes), names); full in cache && r.value == cache[full]
      ensures r.Ok? && r.value.name !in Listed(server) ==> Sound(server, r.value)
      ensures r.Ok? && r.value.name in Listed(server) ==> IsListed(server, r.value)
      decreases |names|
    {
      if |names| == 1 {
        r := GetAttribute(names[0]);
      } else {
        var front, last := names[..|names| - 1], names[|names| - 1];
        r := Chain(front);
        if r.Ok? {
          ghost var before := cache;
          SameAvailable(server, old(cache), before, r.value.name + "." + last);
          r := GetChild(r.value, last);
          ServedAlong(server, old(cache), before, cache);
        }
      }
    }
  }

  /** The cache holds, for every name among the first n models, one model of that name. */
  ghost predicate FromModels(cache: Refs, models: seq<DeviceModel>, n: nat)
    requires n <= |models|
  {
    && (forall j | 0 <= j < n :: models[j].name in cache)
    && (forall name | name in cache ::
          exists j :: 0 <= j < n && models[j].name == name && cache[name] == DeviceRef(name, models[j]))
  }

  /** The attributes are the cached references of the first n models, private names aside. */
  ghost predicate Mirrors(cache: Refs, attributes: Refs, models: seq<DeviceModel>, n: nat)
    requires n <= |models|
  {
    && (forall name | name in attributes :: name in cache && attributes[name] == cache[name] && !Private(name))
    && (forall j | 0 <= j < n && !Private(models[j].name) :: models[j].name in attributes)
  }

  lemma ListedAreCached(server: Server, cache: Refs, attributes: Refs)
    requires server.Valid()
    requires FromModels(cache, server.GetDevices(), |server.GetDevices()|)
    requires Mirrors(cache, attributes, server.GetDevices(), |server.GetDevices()|)
    ensures cache.Keys == Listed(server) && WellKeyed(cache, attributes) && History(server, cache, [])
    ensures forall name | name in cache && !Private(name) :: name in attributes
    ensures AllSound(server, cache) && FromListing(server, cache)
  {
    var models := server.GetDevices();
    forall name | name in cache ensures IsListed(server, cache[name]) {
      var j :| 0 <= j < |models| && models[j].name == name && cache[name] == DeviceRef(name, models[j]);
      assert Registered(server, server.listing[j]) == models[j];
    }
  }

  /** The name of the reference that a chain starts from. */
  function Start(attributes: Refs, name: string): (start: string) {
    if name in attributes then attributes[name].name else name
  }

  /** The name of the reference that a chain ends at. */
  function FullName(attributes: Refs, names: Address): (full: string)
    requires names != []
  {
    if |names| == 1 then Start(attributes, names[0])
    else FullName(attributes, names[..|names| - 1]) + "." + names[|names| - 1]
  }

  /** Each access of a chain succeeds, the names it needs being available beforehand. */
  predicate Succeeds(server: Server, attributes: Refs, cache: Refs, names: Address)
    requires names != []
  {
    if |names| == 1 then StartsAt(server, attributes, cache, names[0])
    else
      var front := names[..|names| - 1];
      && Succeeds(server, attributes, cache, front)
      && GoesOn(server, cache, FullName(attributes, front), names[|names| - 1])
  }

  /** What was looked up meanwhile makes no difference to what can be looked up next. */
  lemma SameAvailable(server: Server, below: Refs, above: Refs, name: string)
    requires OnlyServed(server, below, above)
    ensures Available(server, below, name) <==> Available(server, above, name)
  {
  }

  lemma ServedAlong(server: Server, below: Refs, middle: Refs, above: Refs)
    requires OnlyServed(server, below, middle) && OnlyServed(server, middle, above)
    ensures OnlyServed(server, below, above)
  {
  }

  lemma SameEnd(a: string, b: string, end: string)
    ensures a + end == b + end <==> a == b
  {
    if a + end == b + end {
      assert a == (a + end)[..|a|] && b == (b + end)[..|b|];
    }
  }

  /**
   * A successful chain is the device at the joined address exactly when its first name does not belong to
   * a device known by another address; then the server finds the same device there.
   */
  lemma ChainAgrees(server: Server, attributes: Refs, names: Address, ref: DeviceRef)
    requires names != [] && ref.name == FullName(attributes, names)
    ensures ref.name == Join(names) <==> Start(attributes, names[0]) == names[0]
    ensures ref.name == Join(names) && Sound(server, ref) && (forall i | 0 <= i < |names| :: DotFree(names[i])) ==>
              Shows(server, names, ref.model)
  {
    ChainName(attributes, names);
    if forall i | 0 <= i < |names| :: DotFree(names[i]) {
      SplitOfDotFree(names);
    }
  }

  /**
   * A reference is the device that the server finds at exactly this address; where the address is a single listed name
   * it is so exactly if a device of that name is registered under it.
   */
  ghost predicate Finds(server: Server, names: Address, ref: DeviceRef)
    requires server.Valid() && names != []
  {
    && ref.name == Join(names)
    && (ref.name !in Listed(server) ==> Shows(server, names, ref.model))
    && (ref.name in Listed(server) && |names| == 1 && OnlyOne(server, ref.name) ==>
          (Shows(server, names, ref.model) <==> OwnKey(server, ref.name)))
  }

  lemma ChainFinds(server: Server, attributes: Refs, names: Address, ref: DeviceRef)
    requires server.Valid() && names != [] && forall i | 0 <= i < |names| :: DotFree(names[i])
    requires ref.name == FullName(attributes, names) && Start(attributes, names[0]) == names[0]
    requires if ref.name in Listed(server) then IsListed(server, ref) else Sound(server, ref)
    ensures Finds(server, names, ref)
  {
    ChainAgrees(server, attributes, names, ref);
    if ref.name in Listed(server) && |names| == 1 && OnlyOne(server, ref.name) {
      ListedFinds(server, names, ref);
    }
  }

  lemma ListedFinds(server: Server, names: Address, ref: DeviceRef)
    requires server.Valid() && |names| == 1 && DotFree(names[0]) && ref.name == Join(names)
    requires IsListed(server, ref) && OnlyOne(server, ref.name)
    ensures Shows(server, names, ref.model) <==> OwnKey(server, ref.name)
  {
    SplitOne(names[0]);
    assert names == [names[0]];
    ListedChainExactly(server, ref);
  }

  /** A chain of dot-free names, its first name allowing. */
  method ChainFindsDevice(devices: DeviceCache, names: Address) returns (r: Result<DeviceRef, AccessError>)
    requires devices.Valid()
    requires names != [] && forall i | 0 <= i < |names| :: DotFree(names[i])
    modifies devices
    ensures devices.Valid()
    ensures r.Ok? && Start(old(devices.attributes), names[0]) == names[0] ==> Finds(devices.server, names, r.value)
    ensures r.Ok? && Start(old(devices.attributes), names[0]) != names[0] ==> r.value.name != Join(names)
  {
    ghost var attributes := devices.attributes;
    r := devices.Chain(names);
    if r.Ok? {
      if Start(attributes, names[0]) == names[0] {
        ChainFinds(devices.server, attributes, names, r.value);
      } else {
        ChainAgrees(devices.server, attributes, names, r.value);
      }
    }
  }

  lemma {:induction false} ChainName(attributes: Refs, names: Address)
    requires names != []
    ensures FullName(attributes, names) == Join(names) <==> Start(attributes, names[0]) == names[0]
    decreases |names|
  {
    if |names| > 1 {
      var front, last := names[..|names| - 1], names[|names| - 1];
      ChainName(attributes, front);
      var below, joined, end := FullName(attributes, front), Join(front), "." + last;
      assert below + "." + last == below + end && joined + "." + last == joined + end;
      SameEnd(below, joined, end);
    }
  }

  // ---------- what the listing is worth ----------

  lemma FindRegistered(server: Server, key: string)
    requires server.Valid() && DotFree(key)
    ensures Split(key) == [key]
    ensures key in server.objects(server.root).entries ==>
              server.Find([key]) == Ok(Some(server.objects(server.root).entries[key]))
    ensures key !in server.objects(server.root).entries ==> server.Find([key]) == Ok(None)
  {
    SplitOne(key);
  }

  lemma ServedIsSound(server: Server, name: string)
    ensures server.GetDevice(name).Ok? ==> Sound(server, DeviceRef(name, server.GetDevice(name).value))
  {
    FoundIsDevice(server.objects, Some(server.root), Split(name));
  }

  ghost predicate ListingSound(server: Server)
    requires server.Valid()
  {
    forall key | key in server.objects(server.root).entries ::
      Sound(server, DeviceRef(Registered(server, key).name, Registered(server, key)))
  }

  /** A listed name can be relied on exactly if under that name there is a device with the same model. */
  lemma ListedSoundExactly(server: Server, key: string)
    requires server.Valid() && key in server.objects(server.root).entries && DotFree(Registered(server, key).name)
    ensures var own := Registered(server, key).name;
            Sound(server, DeviceRef(own, Registered(server, key))) <==>
            own in server.objects(server.root).entries && Registered(server, own) == Registered(server, key)
  {
    FindRegistered(server, Registered(server, key).name);
  }

  /** If no other device has that name, it can be exactly if its device is registered under it. */
  lemma ListedChainExactly(server: Server, ref: DeviceRef)
    requires server.Valid() && IsListed(server, ref) && DotFree(ref.name) && OnlyOne(server, ref.name)
    ensures Sound(server, ref) <==> OwnKey(server, ref.name)
  {
    var key :| key in server.objects(server.root).entries && Registered(server, key).name == ref.name
               && Registered(server, key) == ref.model;
    ListedSoundExactly(server, key);
  }

  /** Own names being dot-free, the whole listing can be relied on exactly if each of them leads to a like device. */
  lemma ListingSoundExactly(server: Server)
    requires server.Valid() && DotFreeNames(server)
    ensures ListingSound(server) <==>
            forall key | key in server.objects(server.root).entries ::
              var own := Registered(server, key).name;
              own in server.objects(server.root).entries && Registered(server, own) == Registered(server, key)
    ensures (forall key | key in server.objects(server.root).entries ::
               OnlyOne(server, Registered(server, key).name)) ==>
              (ListingSound(server) <==> OwnKeys(server))
  {
    forall key | key in server.objects(server.root).entries
      ensures Sound(server, DeviceRef(Registered(server, key).name, Registered(server, key))) <==>
              var own := Registered(server, key).name;
              own in server.objects(server.root).entries && Registered(server, own) == Registered(server, key)
    {
      ListedSoundExactly(server, key);
    }
  }

  /** A device registered under a name other than its own is listed under one that the server does not know. */
  lemma RenamedDeviceIsNotFound() returns (server: Server)
    ensures server.Valid() && DotFreeNames(server) && !ListingSound(server)
    ensures server.GetDevices() == [DeviceModel("bar", [])] && server.Find(["bar"]) == Ok(None)
  {
    var devices, renamed := Dictionary(map["foo" := 1]), Device(Some("bar"), false, [], map[]);
    server := Server((id: ObjectId) => if id == 0 then devices else if id == 1 then renamed else Other, 0, ["foo"]);
    assert server.objects(0).entries["foo"] == 1;
    assert Registered(server, "foo") == DeviceModel("bar", []);
    SplitOne("bar");
    assert !Sound(server, DeviceRef("bar", DeviceModel("bar", [])));
  }

  // ---------- where the chain and the server part ----------

  const example: Server :=
    var motor := Device(Some("m"), false, [], map["x" := 2]);
    var axis := Device(Some("m-x"), false, [], map[]);
    var devices := Dictionary(map["m" := 1]);
    Server((id: ObjectId) => if id == 0 then devices else if id == 1 then motor else if id == 2 then axis else Other,
           0, ["m"])

  lemma ExampleIsValid()
    ensures example.Valid() && KeepsAttributes(example) && Listed(example) == {"m"}
  {
    assert example.objects(0).entries["m"] == 1;
    assert example.GetDevices() == [DeviceModel("m", [])];
    assert example.GetDevices()[0].name == "m";
  }

  lemma ExampleAnswers()
    ensures example.GetDevice("m.x") == Ok(DeviceModel("m-x", []))
    ensures example.Find(["m-x"]) == Ok(None)
  {
    SplitFirst("m", "x");
    SplitOne("x");
    assert "m" + "." + "x" == "m.x";
    assert FindComponent(example.objects, Some(1), ["x"]) == Ok(Some(2));
    assert ["m", "x"][1..] == ["x"];
  }

  /** After m.x is looked up, its own name works as a first name too, though the server knows no such address. */
  method OwnNameBecomesFirstName() returns (r: Result<DeviceRef, AccessError>)
    ensures example.Find(["m-x"]) == Ok(None)
    ensures r == Ok(DeviceRef("m.x", DeviceModel("m-x", [])))
  {
    ExampleIsValid();
    ExampleAnswers();
    var cache := new DeviceCache(example);
    r := cache.GetItem("m.x");
    assert cache.attributes["m-x"] == DeviceRef("m.x", DeviceModel("m-x", []));
    r := cache.GetAttribute("m-x");
  }
}
