/**
 * The device provider (`MyDeviceProvider`): a cache from device identifier to
 * blind, filled lazily and at start-up, and the creation of new blinds from a
 * user's creation form.
 */
module Provider {
  import opened Wrappers
  import opened SettingValues
  import opened Blinds

  /** The interfaces and the device type every announced blind is given. */
  datatype Interface = SettingsInterface | EntryInterface | EntrySensorInterface
  datatype DeviceType = EntryDevice

  const AnnouncedInterfaces: seq<Interface> := [SettingsInterface, EntryInterface, EntrySensorInterface]

  /** One call of the host's device discovery (`onDiscovered`). */
  datatype Announcement = Announcement(
    nativeId: string,
    name: Option<string>,
    interfaces: seq<Interface>,
    deviceType: DeviceType)

  /** The prefix that marks an identifier as made by this plugin. */
  const LocalPrefix := "shell:"

  /** `settings[key]?.toString()`, an absent key reading as `undefined`. */
  function Field(settings: map<string, SettingValue>, key: string): Option<string> {
    if key in settings then ToText(settings[key]) else None
  }

  /** The field under `key` is present and its string form is not empty. */
  predicate Filled(settings: map<string, SettingValue>, key: string) {
    key in settings && Truthy(settings[key])
  }

  /** The seven-way truthiness test guarding device creation. */
  function IsComplete(settings: map<string, SettingValue>): (ok: bool)
    ensures ok <==> forall k :: k in RecognisedKeys ==> Filled(settings, k)
    ensures ok ==> forall k :: k in RecognisedKeys ==> Field(settings, k).Some? && Field(settings, k).value != ""
  {
    Filled(settings, "shadeName") && Filled(settings, "password") && Filled(settings, "ip")
    && Filled(settings, "port") && Filled(settings, "blindCode") && Filled(settings, "motorCode")
    && Filled(settings, "parentGroup")
  }

  /** A numeric 0 passes validation: it is tested by its string form "0". */
  lemma ZeroIsFilled(settings: map<string, SettingValue>, key: string)
    requires key in settings && settings[key] == Num(0)
    ensures Filled(settings, key) && Field(settings, key) == Some("0")
  {
  }

  /** What a successful creation writes into the new blind's store. */
  function CreatedStore(settings: map<string, SettingValue>): (w: map<string, string>)
    requires IsComplete(settings)
    ensures forall k :: k in w <==> k in RecognisedKeys
    ensures forall k :: k in w ==> w[k] == Field(settings, k).value
  {
    map[ "shadeName" := Field(settings, "shadeName").value,
         "password" := Field(settings, "password").value,
         "ip" := Field(settings, "ip").value,
         "port" := Field(settings, "port").value,
         "blindCode" := Field(settings, "blindCode").value,
         "motorCode" := Field(settings, "motorCode").value,
         "parentGroup" := Field(settings, "parentGroup").value ]
  }

  /**
   * After a successful creation the blind's settings list shows, for each of
   * the seven keys, exactly the text of the value the form gave, whatever the
   * store held before.
   */
  lemma CreatedBlindShowsForm(before: map<string, string>, settings: map<string, SettingValue>)
    requires IsComplete(settings)
    ensures forall i :: 0 <= i < |RecognisedKeys| ==>
              SettingsFor(before + CreatedStore(settings))[i].value == Field(settings, RecognisedKeys[i])
  {
  }

  /** The list `getCreateDeviceSettings` returns: the same seven descriptors, with no values. */
  function CreateDeviceSettings(): (r: seq<Setting>)
    ensures |r| == |RecognisedKeys|
    ensures forall i :: 0 <= i < |r| ==> r[i].key == RecognisedKeys[i] && r[i].value == None
  {
    [ Setting("shadeName", "Shade name", None, None, None, None),
      Setting("password", "Password", None, None, Some("password"), None),
      Setting("ip", "Host IP Address", None, Some("192.168.2.222"), None, None),
      Setting("port", "Host port", Some("The port number (usually 8838)"), Some("8838"), Some("number"), None),
      Setting("blindCode", "Blind Code", None, None, None, None),
      Setting("motorCode", "Motor Code", None, None, None, None),
      Setting("parentGroup", "Parent Group", None, None, None, None) ]
  }

  /** The creation form and a blind's settings form describe the same fields identically. */
  lemma CreationFormMatchesSettingsForm(storage: map<string, string>, i: nat)
    requires i < |RecognisedKeys|
    ensures CreateDeviceSettings()[i] == SettingsFor(storage)[i].(value := None)
  {
  }

  /**
   * The truthiness guard of the start-up loop: an identifier the host lists
   * is used only when it is neither null/undefined (`None`) nor empty.
   */
  predicate IsUsableId(id: Option<string>) {
    id.Some? && id.value != ""
  }

  class MyDeviceProvider {
    /** What the host persisted for each identifier before this provider started. */
    const host: map<string, Persisted>
    var devices: map<string, NeosmartBlind>
    /** Every discovery announcement made so far, oldest first. */
    ghost var announced: seq<Announcement>

    /** Every cached blind is stored under its own identifier. */
    ghost predicate Valid()
      reads this
    {
      forall id :: id in devices ==> devices[id].nativeId == id
    }

    /** At most one blind instance per identifier. */
    lemma DistinctIdsHoldDistinctBlinds(a: string, b: string)
      requires Valid() && a in devices && b in devices && a != b
      ensures devices[a] != devices[b]
    {
    }

    function SavedFor(nativeId: string): Persisted {
      if nativeId in host then host[nativeId] else NothingPersisted
    }

    /** Rehydration: one blind for every non-empty identifier the host already knows. */
    constructor (knownIds: seq<Option<string>>, host: map<string, Persisted>)
      ensures Valid()
      ensures this.host == host && announced == []
      ensures devices.Keys == set i | 0 <= i < |knownIds| && IsUsableId(knownIds[i]) :: knownIds[i].value
      ensures forall id :: id in devices ==> fresh(devices[id]) && devices[id].RestoredFrom(SavedFor(id))
    {
      this.host := host;
      devices := map[];
      announced := [];
      new;
      for i := 0 to |knownIds|
        invariant Valid() && announced == []
        invariant devices.Keys == set j | 0 <= j < i && IsUsableId(knownIds[j]) :: knownIds[j].value
        invariant forall id :: id in devices ==> fresh(devices[id]) && devices[id].RestoredFrom(SavedFor(id))
      {
        if IsUsableId(knownIds[i]) {
          var blind := GetDevice(knownIds[i].value);
        }
      }
    }

    /** Lookup-or-create: an existing blind is returned as is, a missing one is built and cached. */
    method GetDevice(nativeId: string) returns (blind: NeosmartBlind)
      requires Valid()
      modifies this
      ensures Valid() && announced == old(announced)
      ensures nativeId in devices && devices[nativeId] == blind && blind.nativeId == nativeId
      ensures nativeId in old(devices) ==> blind == old(devices)[nativeId] && devices == old(devices)
      ensures nativeId !in old(devices) ==>
                fresh(blind) && devices == old(devices)[nativeId := blind] && blind.RestoredFrom(SavedFor(nativeId))
    {
      if nativeId in devices {
        blind := devices[nativeId];
      } else {
        blind := new NeosmartBlind(nativeId, SavedFor(nativeId));
        devices := devices[nativeId := blind];
      }
    }

    /**
     * Creation from a user's form. All seven fields must be filled; otherwise
     * the result is `None` and nothing changes. On success the new identifier
     * is announced once under the form's `name`, looked up or created, and
     * given the seven values as text. `randomSuffix` stands for the random
     * number's string form; nothing makes the identifier fresh, and a taken one
     * reaches the blind already cached under it.
     */
    method CreateDevice(settings: map<string, SettingValue>, randomSuffix: string) returns (id: Option<string>)
      requires Valid()
      modifies this, devices.Values
      ensures Valid()
      ensures id.Some? <==> IsComplete(settings)
      ensures id.None? ==>
                devices == old(devices) && announced == old(announced) && unchanged(devices.Values)
      ensures id.Some? ==>
                id.value == LocalPrefix + randomSuffix
                && announced == old(announced) + [Announcement(id.value, Field(settings, "name"), AnnouncedInterfaces, EntryDevice)]
                && id.value in devices
                && devices == old(devices)[id.value := devices[id.value]]
                && (id.value in old(devices) ==>
                      devices[id.value] == old(devices)[id.value]
                      && devices[id.value].storage == old(devices[id.value].storage) + CreatedStore(settings)
                      && devices[id.value].entryOpen == old(devices[id.value].entryOpen))
                && (id.value !in old(devices) ==>
                      fresh(devices[id.value])
                      && devices[id.value].storage == SavedFor(id.value).storage + CreatedStore(settings)
                      && devices[id.value].entryOpen == (SavedFor(id.value).entryOpen == Some(true)))
                && unchanged(old(devices.Values) - {devices[id.value]})
    {
      if !IsComplete(settings) {
        return None;
      }
      var nativeId := LocalPrefix + randomSuffix;
      announced := announced + [Announcement(nativeId, Field(settings, "name"), AnnouncedInterfaces, EntryDevice)];
      var device := GetDevice(nativeId);
      assert devices == old(devices)[nativeId := device];
      CopyCreationFields(device, settings);
      id := Some(nativeId);
    }

    /** The seven `putSetting` calls of a successful creation, in source order. */
    static method CopyCreationFields(device: NeosmartBlind, settings: map<string, SettingValue>)
      requires IsComplete(settings)
      modifies device
      ensures device.storage == old(device.storage) + CreatedStore(settings)
      ensures device.entryOpen == old(device.entryOpen)
    {
      ghost var before, w := device.storage, CreatedStore(settings);
      var ok0 := device.PutSetting("shadeName", settings["shadeName"]);
      var ok1 := device.PutSetting("password", settings["password"]);
      var ok2 := device.PutSetting("ip", settings["ip"]);
      var ok3 := device.PutSetting("port", settings["port"]);
      var ok4 := device.PutSetting("blindCode", settings["blindCode"]);
      var ok5 := device.PutSetting("motorCode", settings["motorCode"]);
      var ok6 := device.PutSetting("parentGroup", settings["parentGroup"]);
      SevenWrites(before, w);
    }
  }

  /**
   * Rehydrating from "a", "", null and "b" gives two distinct closed blinds
   * with empty stores; asking again gives the same ones.
   */
  method RehydrationScenario() {
    var known := [Some("a"), Some(""), None, Some("b")];
    var p := new MyDeviceProvider(known, map[]);
    assert IsUsableId(known[0]) && IsUsableId(known[3]);
    assert "a" in p.devices && "b" in p.devices;
    var a := p.GetDevice("a");
    var b := p.GetDevice("b");
    assert a != b;
    assert !a.entryOpen && a.storage == map[] && !b.entryOpen && b.storage == map[];
    var again := p.GetDevice("a");
    assert again == a;
    a.OpenEntry();
    assert a.entryOpen && a.storage == map[];
    a.CloseEntry();
    assert !a.entryOpen;
  }

  /** The creation form of a living-room blind, with every field filled. */
  function LivingRoomForm(): map<string, SettingValue> {
    map[
      "shadeName" := Str("Living Room"), "password" := Str("x"), "ip" := Str("192.168.2.222"),
      "port" := Num(8838), "blindCode" := Str("1"), "motorCode" := Str("2"), "parentGroup" := Str("G1"),
      "name" := Str("Living Room Blind")]
  }

  /** A complete form creates one blind, announces it once under the form's name and stores its values. */
  method CreationScenario(p: MyDeviceProvider, suffix: string)
    requires p.Valid()
    modifies p, p.devices.Values
  {
    var form := LivingRoomForm();
    assert IsComplete(form);
    ghost var log := p.announced;
    var id := p.CreateDevice(form, suffix);
    assert id == Some("shell:" + suffix);
    assert p.announced == log + [Announcement("shell:" + suffix, Some("Living Room Blind"), AnnouncedInterfaces, EntryDevice)];
    assert p.devices[id.value].storage["ip"] == "192.168.2.222";
  }

  /** The same form without a port creates nothing and announces nothing. */
  method IncompleteFormScenario(p: MyDeviceProvider, suffix: string)
    requires p.Valid()
    modifies p, p.devices.Values
  {
    var form := LivingRoomForm() - {"port"};
    assert !Filled(form, "port");
    var devices := p.devices;
    ghost var log := p.announced;
    var none := p.CreateDevice(form, suffix);
    assert none == None && p.devices == devices && p.announced == log;
  }
}
