/**
 * One blind (`NeosmartBlind`): an open/closed flag and a string-keyed
 * settings store, both kept by the host and seen here as plain fields.
 */
module Blinds {
  import opened Wrappers
  import opened SettingValues

  /** The seven settings a blind recognises, in the order its forms list them. */
  const RecognisedKeys: seq<string> :=
    ["shadeName", "password", "ip", "port", "blindCode", "motorCode", "parentGroup"]

  /**
   * A setting descriptor as shown in a settings form. `inputType` is the
   * descriptor's `type`; `value` is `None` both where the store has nothing
   * under the key and where the descriptor carries no value at all.
   */
  datatype Setting = Setting(
    key: string,
    title: string,
    description: Option<string>,
    placeholder: Option<string>,
    inputType: Option<string>,
    value: Option<string>)

  /** `storage.getItem(key)`: the stored text, or nothing. */
  function Lookup(storage: map<string, string>, key: string): Option<string> {
    if key in storage then Some(storage[key]) else None
  }

  /** The list `getSettings` returns for a blind whose store is `storage`. */
  function SettingsFor(storage: map<string, string>): (r: seq<Setting>)
    ensures |r| == |RecognisedKeys|
    ensures forall i :: 0 <= i < |r| ==>
              r[i].key == RecognisedKeys[i] && r[i].value == Lookup(storage, RecognisedKeys[i])
  {
    [ Setting("shadeName", "Shade name", None, None, None, Lookup(storage, "shadeName")),
      Setting("password", "Password", None, None, Some("password"), Lookup(storage, "password")),
      Setting("ip", "Host IP Address", None, Some("192.168.2.222"), None, Lookup(storage, "ip")),
      Setting("port", "Host port", Some("The port number (usually 8838)"), Some("8838"), Some("number"),
              Lookup(storage, "port")),
      Setting("blindCode", "Blind Code", None, None, None, Lookup(storage, "blindCode")),
      Setting("motorCode", "Motor Code", None, None, None, Lookup(storage, "motorCode")),
      Setting("parentGroup", "Parent Group", None, None, None, Lookup(storage, "parentGroup")) ]
  }

  /** Writing `v` under `key` shows up in the next settings list, and only there. */
  lemma PutThenGetSettings(storage: map<string, string>, key: string, v: string, i: nat)
    requires i < |RecognisedKeys|
    ensures SettingsFor(storage[key := v])[i].value
            == if RecognisedKeys[i] == key then Some(v) else SettingsFor(storage)[i].value
  {
  }

  /** Writing every recognised key once, one after another in form order, amounts to one override. */
  lemma SevenWrites(before: map<string, string>, w: map<string, string>)
    requires w.Keys == {"shadeName", "password", "ip", "port", "blindCode", "motorCode", "parentGroup"}
    ensures before["shadeName" := w["shadeName"]]["password" := w["password"]]["ip" := w["ip"]]
                  ["port" := w["port"]]["blindCode" := w["blindCode"]]["motorCode" := w["motorCode"]]
                  ["parentGroup" := w["parentGroup"]]
            == before + w
  {
  }

  /** What the host has kept for a device identifier across restarts. */
  datatype Persisted = Persisted(entryOpen: Option<bool>, storage: map<string, string>)

  /** A device identifier the host knows nothing about. */
  const NothingPersisted := Persisted(None, map[])

  class NeosmartBlind {
    const nativeId: string
    var entryOpen: bool
    var storage: map<string, string>

    /** The state a blind takes on when it is built over what the host persisted. */
    predicate RestoredFrom(saved: Persisted)
      reads this
    {
      entryOpen == (saved.entryOpen == Some(true)) && storage == saved.storage
    }

    /**
     * `entryOpen = entryOpen || false`: a flag the host had set stays set, and
     * an unset flag becomes false.
     */
    constructor (nativeId: string, saved: Persisted)
      ensures this.nativeId == nativeId
      ensures entryOpen <==> saved.entryOpen == Some(true)
      ensures saved.entryOpen == None ==> !entryOpen
      ensures storage == saved.storage
      ensures RestoredFrom(saved)
    {
      this.nativeId := nativeId;
      entryOpen := saved.entryOpen.Some? && saved.entryOpen.value;
      storage := saved.storage;
    }

    /** `getSettings`: the seven recognised keys in form order, each with what the store holds for it. */
    function GetSettings(): (r: seq<Setting>)
      reads this
      ensures |r| == |RecognisedKeys|
      ensures forall i :: 0 <= i < |r| ==>
                r[i].key == RecognisedKeys[i]
                && (r[i].value.Some? <==> RecognisedKeys[i] in storage)
                && (r[i].value.Some? ==> r[i].value.value == storage[RecognisedKeys[i]])
    {
      SettingsFor(storage)
    }

    /**
     * `storage.setItem(key, value.toString())`. Any key is accepted. Calling
     * `toString` on `null`/`undefined` throws before the store is touched:
     * then `ok` is false and nothing changes.
     */
    method PutSetting(key: string, value: SettingValue) returns (ok: bool)
      modifies this
      ensures ok <==> !value.Null?
      ensures ok ==> storage == old(storage)[key := ToText(value).value]
      ensures !ok ==> storage == old(storage)
      ensures entryOpen == old(entryOpen)
    {
      var text := ToText(value);
      if text.None? {
        return false;
      }
      storage := storage[key := text.value];
      ok := true;
    }

    method OpenEntry()
      modifies this
      ensures entryOpen
      ensures storage == old(storage)
    {
      entryOpen := true;
    }

    method CloseEntry()
      modifies this
      ensures !entryOpen
      ensures storage == old(storage)
    {
      entryOpen := false;
    }
  }
}
