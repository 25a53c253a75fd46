/** The macro recorder dialog: a `recording` flag and the list of recorded key names,
    with start/stop, clear, the key-press filter and the `" + "`-joined rendering. */
module Macros {

  const Separator: string := " + "

  /** The number of characters in all the names together. */
  function TotalLength(keys: seq<string>): nat {
    if |keys| == 0 then 0 else |keys[0]| + TotalLength(keys[1..])
  }

  /** `" + ".join(keys)`: the names' characters and one separator between each two. */
  function Join(keys: seq<string>): (joined: string)
    ensures |keys| == 0 ==> joined == ""
    ensures 1 <= |keys| ==> |joined| == TotalLength(keys) + |Separator| * (|keys| - 1)
    ensures 1 <= |keys| ==> keys[0] <= joined
  {
    if |keys| == 0 then ""
    else if |keys| == 1 then keys[0]
    else keys[0] + Separator + Join(keys[1..])
  }

  /** Python's `s.split(" + ")`, scanning left to right: `piece` is the text read since
      the last separator. */
  function SplitFrom(s: string, piece: string): (parts: seq<string>)
    ensures 1 <= |parts|
    decreases |s|
  {
    if |s| == 0 then [piece]
    else if 3 <= |s| && s[..3] == Separator then [piece] + SplitFrom(s[3..], "")
    else SplitFrom(s[1..], piece + [s[0]])
  }

  function Split(s: string): seq<string> {
    SplitFrom(s, "")
  }

  /** A key name without a space cannot hold a separator, so scanning it only grows the
      current piece. */
  lemma {:induction false} SplitFromSkipsName(name: string, rest: string, piece: string)
    requires ' ' !in name
    ensures SplitFrom(name + rest, piece) == SplitFrom(rest, piece + name)
    decreases |name|
  {
    if |name| > 0 {
      var s := name + rest;
      assert s[0] == name[0] != ' ';
      assert s[1..] == name[1..] + rest;
      SplitFromSkipsName(name[1..], rest, piece + [name[0]]);
      assert piece + [name[0]] + name[1..] == piece + name;
    } else {
      assert name + rest == rest && piece + name == piece;
    }
  }

  /** Splitting a joined macro gives back its key names, provided there is at least one
      and none holds a space (so none can hold the separator). */
  lemma {:induction false} SplitJoin(keys: seq<string>)
    requires 1 <= |keys|
    requires forall i :: 0 <= i < |keys| ==> ' ' !in keys[i]
    ensures Split(Join(keys)) == keys
    decreases |keys|
  {
    if |keys| == 1 {
      SplitFromSkipsName(keys[0], "", "");
      assert keys[0] + "" == keys[0];
      assert "" + keys[0] == keys[0];
    } else {
      var tail := Separator + Join(keys[1..]);
      assert Join(keys) == keys[0] + tail;
      SplitFromSkipsName(keys[0], tail, "");
      assert "" + keys[0] == keys[0];
      assert tail[..3] == Separator && tail[3..] == Join(keys[1..]);
      SplitJoin(keys[1..]);
      assert keys == [keys[0]] + keys[1..];
    }
  }

  /** Joining one more key name appends the separator and that name. */
  lemma {:induction false} JoinAppend(keys: seq<string>, name: string)
    requires 1 <= |keys|
    ensures Join(keys + [name]) == Join(keys) + Separator + name
    decreases |keys|
  {
    if |keys| == 1 {
      assert (keys + [name])[1..] == [name];
    } else {
      assert (keys + [name])[1..] == keys[1..] + [name];
      JoinAppend(keys[1..], name);
    }
  }

  predicate NoDuplicates(keys: seq<string>) {
    forall i, j :: 0 <= i < j < |keys| ==> keys[i] != keys[j]
  }

  predicate NoEmptyNames(keys: seq<string>) {
    forall i :: 0 <= i < |keys| ==> keys[i] != ""
  }

  /** What one key press does to the list while recording: a non-empty name not yet
      recorded is appended; anything else leaves the list as it is. */
  function AddKey(keys: seq<string>, name: string): (r: seq<string>)
    ensures forall x :: x in r <==> x in keys || (x == name && name != "")
    ensures |keys| <= |r| <= |keys| + 1 && r[..|keys|] == keys
    ensures NoDuplicates(keys) ==> NoDuplicates(r)
    ensures NoEmptyNames(keys) ==> NoEmptyNames(r)
  {
    if name != "" && name !in keys then keys + [name] else keys
  }

  /** The list after a series of key presses, starting from `keys`. */
  function RecordAll(keys: seq<string>, presses: seq<string>): (recorded: seq<string>)
    ensures |keys| <= |recorded| <= |keys| + |presses|
    decreases |presses|
  {
    if |presses| == 0 then keys else RecordAll(AddKey(keys, presses[0]), presses[1..])
  }

  /** After any series of presses the recorded list keeps what it had in front and holds
      no duplicate and no empty name. */
  lemma {:induction false} RecordAllKeepsInvariant(keys: seq<string>, presses: seq<string>)
    requires NoDuplicates(keys) && NoEmptyNames(keys)
    ensures var r := RecordAll(keys, presses);
      |keys| <= |r| && r[..|keys|] == keys && NoDuplicates(r) && NoEmptyNames(r)
    decreases |presses|
  {
    if |presses| > 0 {
      var next := AddKey(keys, presses[0]);
      RecordAllKeepsInvariant(next, presses[1..]);
      var r := RecordAll(next, presses[1..]);
      assert r[..|keys|] == r[..|next|][..|keys|];
    }
  }

  /** The recorded list holds exactly the old names and the non-empty pressed names. */
  lemma {:induction false} RecordAllMembers(keys: seq<string>, presses: seq<string>)
    ensures forall x :: x in RecordAll(keys, presses) <==> x in keys || (x in presses && x != "")
    decreases |presses|
  {
    if |presses| > 0 {
      RecordAllMembers(AddKey(keys, presses[0]), presses[1..]);
      assert presses == [presses[0]] + presses[1..];
    }
  }

  /** Every name a series of presses adds was pressed and was not recorded before. */
  lemma RecordAllNewNames(keys: seq<string>, presses: seq<string>)
    requires NoDuplicates(keys) && NoEmptyNames(keys)
    ensures var r := RecordAll(keys, presses);
      forall m :: |keys| <= m < |r| ==> r[m] in presses && r[m] !in keys
  {
    var r := RecordAll(keys, presses);
    RecordAllKeepsInvariant(keys, presses);
    RecordAllMembers(keys, presses);
    forall m | |keys| <= m < |r| ensures r[m] in presses && r[m] !in keys {
      forall k | 0 <= k < |keys| ensures keys[k] != r[m] {
        assert r[k] == keys[k];
      }
    }
  }

  /** The position of the first press of `x`. */
  function FirstIndex(presses: seq<string>, x: string): (i: nat)
    requires x in presses
    ensures i < |presses| && presses[i] == x
    ensures forall k :: 0 <= k < i ==> presses[k] != x
  {
    if presses[0] == x then 0 else 1 + FirstIndex(presses[1..], x)
  }

  /** The names a series of presses adds come in the order of their first press. */
  lemma {:induction false} RecordAllFirstPressOrder(keys: seq<string>, presses: seq<string>)
    requires NoDuplicates(keys) && NoEmptyNames(keys)
    ensures var r := RecordAll(keys, presses);
      forall i, j :: |keys| <= i < j < |r| ==>
        r[i] in presses && r[j] in presses && FirstIndex(presses, r[i]) < FirstIndex(presses, r[j])
    decreases |presses|
  {
    var r := RecordAll(keys, presses);
    RecordAllNewNames(keys, presses);
    if |presses| > 0 {
      var x, rest := presses[0], presses[1..];
      var next := AddKey(keys, x);
      assert r == RecordAll(next, rest);
      RecordAllKeepsInvariant(next, rest);
      RecordAllNewNames(next, rest);
      RecordAllFirstPressOrder(next, rest);
      // Every name past `next` came from a later press, and differs from the first one.
      forall m | |next| <= m < |r|
        ensures r[m] in rest && r[m] != x && FirstIndex(presses, r[m]) == 1 + FirstIndex(rest, r[m])
      {
        if x != "" {
          assert x in next;
          var k :| 0 <= k < |next| && next[k] == x;
          assert r[k] == x;
        }
      }
      forall i, j | |keys| <= i < j < |r|
        ensures FirstIndex(presses, r[i]) < FirstIndex(presses, r[j])
      {
        if i < |next| {
          assert r[i] == next[i] == x;
        }
      }
    }
  }

  /** `"Key: " + name` per recorded name: the lines of the dialog's read-only display. */
  function DisplayLines(keys: seq<string>): (lines: seq<string>)
    ensures |lines| == |keys|
  {
    seq(|keys|, i requires 0 <= i < |keys| => "Key: " + keys[i])
  }

  datatype Event = KeyPress(keyName: string) | OtherEvent

  class MacroRecorderDialog {
    var recording: bool
    var macroKeys: seq<string>
    /** Lines of the read-only macro display. */
    var display: seq<string>
    /** Caption of the record button. */
    var recordButtonText: string

    ghost predicate Valid()
      reads this
    {
      && NoDuplicates(macroKeys)
      && NoEmptyNames(macroKeys)
      && display == DisplayLines(macroKeys)
      && recordButtonText == (if recording then "Stop Recording" else "Start Recording")
    }

    constructor ()
      ensures Valid()
      ensures !recording && macroKeys == [] && display == []
    {
      recording := false;
      macroKeys := [];
      display := [];
      recordButtonText := "Start Recording";
    }

    /** Starting empties the list and the display; stopping keeps the recorded keys. */
    method ToggleRecording()
      requires Valid()
      modifies this
      ensures Valid()
      ensures recording == !old(recording)
      ensures macroKeys == (if recording then [] else old(macroKeys))
    {
      if !recording {
        recording := true;
        recordButtonText := "Stop Recording";
        macroKeys := [];
        display := [];
      } else {
        recording := false;
        recordButtonText := "Start Recording";
      }
    }

    method ClearMacro()
      requires Valid()
      modifies this
      ensures Valid()
      ensures recording == old(recording) && macroKeys == []
    {
      macroKeys := [];
      display := [];
    }

    /** The key filter: while recording, a key press is consumed and its name recorded
        once; anything else passes to the base class, which does not consume it. */
    method EventFilter(event: Event) returns (handled: bool)
      requires Valid()
      modifies this
      ensures Valid()
      ensures recording == old(recording)
      ensures handled <==> recording && event.KeyPress?
      ensures macroKeys == (if handled then AddKey(old(macroKeys), event.keyName) else old(macroKeys))
    {
      if recording && event.KeyPress? {
        var keyName := event.keyName;
        if keyName != "" && keyName !in macroKeys {
          macroKeys := macroKeys + [keyName];
          display := display + ["Key: " + keyName];
        }
        return true;
      }
      return false;
    }

    /** The macro text: empty for no keys; otherwise it splits back into the recorded
        keys when none of them holds a space. */
    function GetMacro(): (macro: string)
      reads this
      ensures macroKeys == [] ==> macro == ""
      ensures (1 <= |macroKeys| && forall i :: 0 <= i < |macroKeys| ==> ' ' !in macroKeys[i])
              ==> Split(macro) == macroKeys
    {
      if 1 <= |macroKeys| && (forall i :: 0 <= i < |macroKeys| ==> ' ' !in macroKeys[i]) then
        SplitJoin(macroKeys);
        Join(macroKeys)
      else
        Join(macroKeys)
    }
  }
}
