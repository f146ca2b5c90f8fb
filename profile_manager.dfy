/**
 * Player profiles of profile_manager.py. The `profile_<name>.json` files are
 * a map from profile name to what the file holds: a record, or something
 * `json.load` cannot read.
 */
module Profiles {
  import opened Maybe

  const FirstWorld: string := "boat_scene"
  const DefaultMaxBreathRms: real := 1.0

  /** The fields of a Profile, as `json.dump(self.__dict__)` writes them. */
  datatype ProfileRecord = ProfileRecord(
    name: string,
    isCalibrated: bool,
    maxBreathRms: real,
    worldsUnlocked: seq<string>,
    achievements: seq<string>)

  /** The contents of one profile file. */
  datatype ProfileFile = Corrupt | Written(record: ProfileRecord)

  /** The record `Profile.__init__` builds for `name`. */
  function FreshRecord(name: string): ProfileRecord
  {
    ProfileRecord(name, false, DefaultMaxBreathRms, [FirstWorld], [])
  }

  /** What `Profile.load` finds under `name`: None when the file is missing or corrupt. */
  function Lookup(files: map<string, ProfileFile>, name: string): (r: Option<ProfileRecord>)
    ensures r.Some? <==> name in files && files[name].Written?
  {
    if name in files && files[name].Written? then Some(files[name].record) else None
  }

  /** The files after `Profile.save` of `r`. */
  function SavedTo(files: map<string, ProfileFile>, r: ProfileRecord): (after: map<string, ProfileFile>)
    ensures after.Keys == files.Keys + {r.name}
    ensures forall n | n in files && n != r.name :: after[n] == files[n]
  {
    files[r.name := Written(r)]
  }

  /** Saving and then loading the same name gives back every field. */
  lemma SaveThenLoad(files: map<string, ProfileFile>, r: ProfileRecord)
    ensures Lookup(SavedTo(files, r), r.name) == Some(r)
  {
  }

  /** Saving one profile leaves what every other name loads unchanged. */
  lemma SaveKeepsOthers(files: map<string, ProfileFile>, r: ProfileRecord, other: string)
    requires other != r.name
    ensures Lookup(SavedTo(files, r), other) == Lookup(files, other)
  {
  }

  predicate IsAlnumChar(c: char)
  {
    ('a' <= c <= 'z') || ('A' <= c <= 'Z') || ('0' <= c <= '9')
  }

  /** `str.isalnum`: non-empty and every character a letter or a digit. */
  predicate IsAlnum(s: string)
  {
    |s| > 0 && forall i | 0 <= i < |s| :: IsAlnumChar(s[i])
  }

  /**
   * An accepted name is a safe file-name stem: it is non-empty and holds no
   * path separator, dot or space.
   */
  lemma AcceptedNameIsFileStem(name: string)
    requires IsAlnum(name)
    ensures name != []
    ensures '/' !in name && '\\' !in name && '.' !in name && ' ' !in name
  {
    forall c | c in name
      ensures IsAlnumChar(c)
    {
      var i :| 0 <= i < |name| && name[i] == c;
    }
  }

  /** The store of profile files. */
  class ProfileStore {
    var files: map<string, ProfileFile>

    constructor (files: map<string, ProfileFile>)
      ensures this.files == files
    {
      this.files := files;
    }
  }

  class Profile {
    var name: string
    var isCalibrated: bool
    var maxBreathRms: real
    var worldsUnlocked: seq<string>
    var achievements: seq<string>

    function Record(): ProfileRecord
      reads this
    {
      ProfileRecord(name, isCalibrated, maxBreathRms, worldsUnlocked, achievements)
    }

    constructor (name: string)
      ensures Record() == FreshRecord(name)
      ensures !isCalibrated && maxBreathRms == 1.0
      ensures worldsUnlocked == ["boat_scene"] && achievements == []
    {
      this.name := name;
      isCalibrated := false;
      maxBreathRms := DefaultMaxBreathRms;
      worldsUnlocked := [FirstWorld];
      achievements := [];
    }

    /** The profile `Profile.load` builds: `Profile(name)` with every field then replaced from the file. */
    constructor FromRecord(r: ProfileRecord)
      ensures Record() == r
    {
      name := r.name;
      isCalibrated := r.isCalibrated;
      maxBreathRms := r.maxBreathRms;
      worldsUnlocked := r.worldsUnlocked;
      achievements := r.achievements;
    }

    method Save(store: ProfileStore)
      modifies store
      ensures store.files == SavedTo(old(store.files), Record())
    {
      store.files := store.files[name := Written(Record())];
    }

    static method Load(name: string, store: ProfileStore) returns (p: Profile?)
      ensures p == null <==> Lookup(store.files, name) == None
      ensures p != null ==> fresh(p) && p.Record() == Lookup(store.files, name).value
    {
      if name !in store.files || store.files[name].Corrupt? {
        return null;
      }
      p := new Profile.FromRecord(store.files[name].record);
    }
  }

  class ProfileManager {
    const store: ProfileStore
    var currentProfile: Profile?

    constructor (store: ProfileStore)
      ensures this.store == store && currentProfile == null
    {
      this.store := store;
      currentProfile := null;
    }

    /**
     * Rejects a name that is not alphanumeric (the empty name included) and
     * changes nothing; otherwise makes a fresh profile current and saves it.
     */
    method CreateProfile(name: string) returns (ok: bool)
      modifies this, store
      ensures ok == IsAlnum(name)
      ensures !ok ==> currentProfile == old(currentProfile) && store.files == old(store.files)
      ensures ok ==> && currentProfile != null && fresh(currentProfile)
                     && currentProfile.Record() == FreshRecord(name)
                     && store.files == SavedTo(old(store.files), FreshRecord(name))
    {
      if !IsAlnum(name) {
        return false;
      }
      var p := new Profile(name);
      currentProfile := p;
      p.Save(store);
      return true;
    }

    /** Makes the stored profile current only when a well-formed one exists. */
    method LoadProfile(name: string) returns (ok: bool)
      modifies this
      ensures ok <==> Lookup(store.files, name).Some?
      ensures ok ==> currentProfile != null && fresh(currentProfile)
                     && currentProfile.Record() == Lookup(store.files, name).value
      ensures !ok ==> currentProfile == old(currentProfile)
    {
      var p := Profile.Load(name, store);
      if p != null {
        currentProfile := p;
        return true;
      }
      return false;
    }

    function GetCurrentProfile(): Profile?
      reads this
    {
      currentProfile
    }
  }
}
