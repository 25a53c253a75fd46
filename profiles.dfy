/** Profiles: the file name derived from a profile's name, the document "Save Profile"
    writes, and what "Load Profile" restores from it. */
module Profiles {
  import opened Wrappers
  import opened Text
  import opened Buttons
  import opened Controller

  /** The dictionary `save_profile` builds before writing it; buttons are keyed by
      their integer index. */
  datatype ProfileData = ProfileData(
    name: string,
    description: string,
    dpi: int,
    pollingRate: string,
    buttons: map<int, ButtonConfig>)

  /** A profile file as `json.load` gives it back. Every key may be absent; button
      entries are keyed by strings, since JSON object keys are strings. */
  datatype Document = Document(
    name: Option<string>,
    description: Option<string>,
    dpi: Option<int>,
    pollingRate: Option<string>,
    buttons: Option<map<string, ConfigEntry>>)

  /** Everything a profile carries besides its name: the description box, the DPI
      slider, the polling rate selector and the twelve button configurations. */
  datatype Settings = Settings(
    description: string,
    dpi: int,
    pollingRate: string,
    buttons: seq<ButtonConfig>)

  /** How one character of a profile name appears in its file name. */
  function FoldChar(c: char): char {
    if c == ' ' then '_' else LowerChar(c)
  }

  /** `name.lower().replace(' ', '_')`. */
  function Slug(name: string): (slug: string)
    ensures |slug| == |name|
    ensures forall i :: 0 <= i < |name| ==> slug[i] == FoldChar(name[i])
  {
    ReplaceChar(Lower(name), ' ', '_')
  }

  /** The profile's file: no spaces and no upper-case ASCII letters, the name's
      characters between the fixed prefix and suffix. */
  function FileName(name: string): (file: string)
    ensures |file| == |name| + 13
    ensures ' ' !in file
    ensures forall i :: 0 <= i < |file| ==> !IsUpperAscii(file[i])
    ensures file[..8] == "profile_" && file[|file| - 5..] == ".json"
  {
    "profile_" + Slug(name) + ".json"
  }

  /** Two profile names share a file exactly when they have the same length and agree
      character by character once case is folded and spaces become underscores. */
  lemma FileNameCollision(a: string, b: string)
    ensures FileName(a) == FileName(b) <==>
      |a| == |b| && forall i :: 0 <= i < |a| ==> FoldChar(a[i]) == FoldChar(b[i])
  {
    if FileName(a) == FileName(b) {
      assert |a| == |b|;
      forall i | 0 <= i < |a| ensures FoldChar(a[i]) == FoldChar(b[i]) {
        assert FileName(a)[8 + i] == FoldChar(a[i]);
        assert FileName(b)[8 + i] == FoldChar(b[i]);
      }
    }
    if |a| == |b| && forall i :: 0 <= i < |a| ==> FoldChar(a[i]) == FoldChar(b[i]) {
      assert Slug(a) == Slug(b);
    }
  }

  /** "Custom 1" and "custom_1" are stored in the same file. An illustration of the
      folding only: the catalog selector offers "Custom 1" but not "custom_1". */
  lemma CustomNamesCollide()
    ensures FileName("Custom 1") == FileName("custom_1")
  {
  }

  /** `json.dump` followed by `json.load`: every key present, integer keys turned
      into their decimal strings. */
  function Serialize(data: ProfileData): (doc: Document)
    ensures doc.buttons.Some?
    ensures forall i :: i in data.buttons ==>
      IntToString(i) in doc.buttons.value && doc.buttons.value[IntToString(i)] == ToEntry(data.buttons[i])
    ensures forall key :: key in doc.buttons.value ==> exists i :: i in data.buttons && key == IntToString(i)
  {
    IntToStringInjectiveAll();
    Document(
      Some(data.name), Some(data.description), Some(data.dpi), Some(data.pollingRate),
      Some(map i | i in data.buttons :: IntToString(i) := ToEntry(data.buttons[i])))
  }

  /** What `save_profile` builds from the current settings. */
  function Snapshot(name: string, s: Settings): (data: ProfileData)
    ensures forall i :: i in data.buttons <==> 0 <= i < |s.buttons|
    ensures forall i :: 0 <= i < |s.buttons| ==> data.buttons[i] == s.buttons[i]
    ensures data.name == name && data.dpi == s.dpi && data.pollingRate == s.pollingRate
    ensures data.description == s.description
  {
    ProfileData(name, s.description, s.dpi, s.pollingRate, map i | 0 <= i < |s.buttons| :: s.buttons[i])
  }

  /** The button entries of a document, none when it has no "buttons" key. */
  function Entries(doc: Document): map<string, ConfigEntry> {
    doc.buttons.GetOr(map[])
  }

  /** What `load_profile_file` makes of settings `s` with document `doc`: description,
      DPI and polling rate from the document or their defaults, and button `i` from the
      entry keyed `str(i)` when there is one. */
  function Restore(doc: Document, s: Settings): (r: Settings)
    ensures |r.buttons| == |s.buttons|
  {
    var entries := Entries(doc);
    Settings(
      doc.description.GetOr(""),
      doc.dpi.GetOr(DefaultDpi),
      doc.pollingRate.GetOr(DefaultPollingRate),
      seq(|s.buttons|, i requires 0 <= i < |s.buttons| =>
        if IntToString(i) in entries then FromEntry(entries[IntToString(i)]) else s.buttons[i]))
  }

  /** Loading overwrites a button only when its index key is present, and leaves every
      other button as it was. */
  lemma RestoreOnlyPresent(doc: Document, s: Settings, i: nat)
    requires i < |s.buttons|
    ensures IntToString(i) !in Entries(doc) ==> Restore(doc, s).buttons[i] == s.buttons[i]
    ensures IntToString(i) in Entries(doc) ==> Restore(doc, s).buttons[i] == FromEntry(Entries(doc)[IntToString(i)])
  {
  }

  /** Each key a document lacks is defaulted on its own: no description gives "", no
      DPI gives 800, no polling rate gives "1000Hz", and no buttons leaves every button
      alone. */
  lemma RestoreDefaults(doc: Document, s: Settings)
    ensures doc.description.None? ==> Restore(doc, s).description == ""
    ensures doc.dpi.None? ==> Restore(doc, s).dpi == 800
    ensures doc.pollingRate.None? ==> Restore(doc, s).pollingRate == "1000Hz"
    ensures doc.buttons.None? ==> Restore(doc, s).buttons == s.buttons
  {
  }

  /** Loading the same document twice is the same as loading it once. */
  lemma RestoreIdempotent(doc: Document, s: Settings)
    ensures Restore(doc, Restore(doc, s)) == Restore(doc, s)
  {
  }

  /** Saving under any name and loading back restores every setting, whatever the
      settings were before the load. */
  lemma SaveThenLoad(name: string, saved: Settings, current: Settings)
    requires |current.buttons| == |saved.buttons|
    ensures Restore(Serialize(Snapshot(name, saved)), current) == saved
  {
  }

  /** Profile files by name: the working directory. */
  class Disk {
    var files: map<string, Document>

    constructor ()
      ensures files == map[]
    {
      files := map[];
    }
  }

  class ProfileManager {
    /** The profile selector's current text. */
    var profileName: string
    /** The description box's text. */
    var description: string
    const controller: MouseController

    constructor (controller: MouseController)
      ensures this.controller == controller
      ensures profileName == "Default" && description == ""
    {
      this.controller := controller;
      profileName := "Default";
      description := "";
    }

    /** The settings on screen. */
    function Current(): (s: Settings)
      reads this, controller, controller.buttons
      ensures |s.buttons| == |controller.buttons|
    {
      Settings(description, controller.dpi, controller.pollingRate, controller.Configs())
    }

    /** "Save Profile": writes a snapshot of the settings to the profile's file,
        replacing whatever was there. */
    method SaveProfile(disk: Disk) returns (message: string)
      modifies disk
      ensures disk.files == old(disk.files)[FileName(profileName) := Serialize(Snapshot(profileName, Current()))]
      ensures message == "Profile '" + profileName + "' saved successfully"
    {
      var buttons: map<int, ButtonConfig> := map[];
      var i := 0;
      while i < |controller.buttons|
        invariant 0 <= i <= |controller.buttons|
        invariant forall j :: j in buttons <==> 0 <= j < i
        invariant forall j :: 0 <= j < i ==> buttons[j] == controller.buttons[j].GetConfig()
      {
        buttons := buttons[i := controller.buttons[i].GetConfig()];
        i := i + 1;
      }
      var data := ProfileData(profileName, description, controller.dpi, controller.pollingRate, buttons);
      ghost var snapshot := Snapshot(profileName, Current());
      assert buttons.Keys == snapshot.buttons.Keys;
      assert buttons == snapshot.buttons;
      disk.files := disk.files[FileName(profileName) := Serialize(data)];
      message := "Profile '" + profileName + "' saved successfully";
    }

    /** "Load Profile": when the profile's file exists, restores the settings from it;
        otherwise changes nothing. */
    method LoadProfileFile(disk: Disk) returns (found: bool, message: string)
      requires controller.Valid()
      modifies this, controller, controller.buttons
      ensures controller.Valid() && controller.buttons == old(controller.buttons)
      ensures profileName == old(profileName)
      ensures found <==> FileName(profileName) in disk.files
      ensures found ==> Current() == Restore(disk.files[FileName(profileName)], old(Current()))
      ensures !found ==> Current() == old(Current())
      ensures forall i :: 0 <= i < |controller.buttons| ==>
        if found && IntToString(i) in Entries(disk.files[FileName(profileName)])
        then controller.buttons[i].VisibilityFollowsFunction()
          && controller.buttons[i].placeholder == Placeholder(controller.buttons[i].func, old(controller.buttons[i].placeholder))
        else unchanged(controller.buttons[i])
      ensures message == if found then "Profile '" + profileName + "' loaded successfully"
                         else "Profile file not found"
    {
      var filename := FileName(profileName);
      if filename !in disk.files {
        found := false;
        message := "Profile file not found";
        return;
      }
      found := true;
      var doc := disk.files[filename];
      description := doc.description.GetOr("");
      controller.dpi := doc.dpi.GetOr(DefaultDpi);
      controller.pollingRate := doc.pollingRate.GetOr(DefaultPollingRate);
      var entries := doc.buttons.GetOr(map[]);
      var widgets := controller.buttons;
      var i := 0;
      while i < |widgets|
        invariant 0 <= i <= |widgets|
        invariant forall j :: 0 <= j < i ==>
          if IntToString(j) in entries
          then widgets[j].GetConfig() == FromEntry(entries[IntToString(j)]) && widgets[j].VisibilityFollowsFunction()
            && widgets[j].placeholder == Placeholder(widgets[j].func, old(widgets[j].placeholder))
          else unchanged(widgets[j])
        invariant forall j :: i <= j < |widgets| ==> unchanged(widgets[j])
        modifies widgets
      {
        var key := IntToString(i);
        if key in entries {
          widgets[i].SetConfig(entries[key]);
        }
        i := i + 1;
      }
      assert Current().buttons == Restore(doc, old(Current())).buttons;
      message := "Profile '" + profileName + "' loaded successfully";
    }

    /** Choosing a profile in the selector loads it straight away. */
    method SelectProfile(name: string, disk: Disk) returns (found: bool, message: string)
      requires controller.Valid()
      modifies this, controller, controller.buttons
      ensures controller.Valid() && controller.buttons == old(controller.buttons)
      ensures profileName == name
      ensures found <==> FileName(name) in disk.files
      ensures found ==> Current() == Restore(disk.files[FileName(name)], old(Current()))
      ensures !found ==> Current() == old(Current())
      ensures forall i :: 0 <= i < |controller.buttons| ==>
        if found && IntToString(i) in Entries(disk.files[FileName(name)])
        then controller.buttons[i].VisibilityFollowsFunction()
          && controller.buttons[i].placeholder == Placeholder(controller.buttons[i].func, old(controller.buttons[i].placeholder))
        else unchanged(controller.buttons[i])
      ensures message == if found then "Profile '" + name + "' loaded successfully"
                         else "Profile file not found"
    {
      profileName := name;
      found, message := LoadProfileFile(disk);
    }
  }

  /** Saving the on-screen settings and loading the same profile back leaves them as
      they were. */
  method SaveThenLoadRestores(manager: ProfileManager, disk: Disk)
    requires manager.controller.Valid()
    modifies manager, manager.controller, manager.controller.buttons, disk
    ensures manager.Current() == old(manager.Current())
  {
    var saved := manager.SaveProfile(disk);
    var found, loaded := manager.LoadProfileFile(disk);
    SaveThenLoad(manager.profileName, old(manager.Current()), old(manager.Current()));
  }
}
