/**
 * The key/value store shared by the iOS app and its keyboard extension
 * (ios/Shared/KeyboardShared.swift): five independent slots in the app
 * group's UserDefaults suite. Every write and read goes through the suite,
 * which may be unavailable; then writes do nothing and reads give nil.
 */
module KeyboardShared {
  import opened Wrappers

  const AppGroupId := "group.com.bobrwhisper.shared"

  /** The five slots of the suite. */
  datatype Slot = TranscriptSlot | StatusSlot | IsRecordingSlot | IsModelLoadedSlot | SelectedModelFilenameSlot

  /** The UserDefaults key each slot is stored under. */
  function Key(slot: Slot): (key: string)
    ensures |key| > 9 && key[..9] == "keyboard."
  {
    match slot
    case TranscriptSlot => "keyboard.transcript"
    case StatusSlot => "keyboard.status"
    case IsRecordingSlot => "keyboard.isRecording"
    case IsModelLoadedSlot => "keyboard.isModelLoaded"
    case SelectedModelFilenameSlot => "keyboard.selectedModelFilename"
  }

  /** A property-list value as the slots store it. */
  datatype StoredValue = Text(text: string) | Number(number: int) | Flag(flag: bool)

  /** The suite's contents, by slot: the keys are distinct, so this is the suite itself. */
  type Entries = map<Slot, StoredValue>

  /** The five slots live under five different keys (they even differ in length). */
  lemma SlotKeysDistinct(a: Slot, b: Slot)
    ensures Key(a) == Key(b) ==> a == b
  {
  }

  /** `defaults?.set(value, forKey: key)`. */
  function Put(available: bool, entries: Entries, slot: Slot, value: StoredValue): (after: Entries)
    ensures available ==> slot in after && after[slot] == value
    ensures !available ==> after == entries
  {
    if available then entries[slot := value] else entries
  }

  /** `defaults.removeObject(forKey: key)`. */
  function Remove(available: bool, entries: Entries, slot: Slot): (after: Entries)
    ensures available ==> slot !in after
    ensures !available ==> after == entries
  {
    if available then entries - {slot} else entries
  }

  /** `defaults?.string(forKey: key)`. */
  function LookupText(available: bool, entries: Entries, slot: Slot): (r: Option<string>)
    ensures r.Some? <==> available && slot in entries && entries[slot].Text?
    ensures r.Some? ==> entries[slot] == Text(r.value)
  {
    if available && slot in entries && entries[slot].Text? then Some(entries[slot].text) else None
  }

  /** `defaults?.object(forKey: key) as? Int`. */
  function LookupNumber(available: bool, entries: Entries, slot: Slot): (r: Option<int>)
    ensures r.Some? <==> available && slot in entries && entries[slot].Number?
    ensures r.Some? ==> entries[slot] == Number(r.value)
  {
    if available && slot in entries && entries[slot].Number? then Some(entries[slot].number) else None
  }

  /** `defaults?.object(forKey: key) as? Bool`. */
  function LookupFlag(available: bool, entries: Entries, slot: Slot): (r: Option<bool>)
    ensures r.Some? <==> available && slot in entries && entries[slot].Flag?
    ensures r.Some? ==> entries[slot] == Flag(r.value)
  {
    if available && slot in entries && entries[slot].Flag? then Some(entries[slot].flag) else None
  }

  /** A slot reads back what was last written to it, or nil when the suite is unavailable. */
  lemma ReadYourWrites(available: bool, entries: Entries, slot: Slot, text: string, number: int, flag: bool)
    ensures LookupText(available, Put(available, entries, slot, Text(text)), slot) == (if available then Some(text) else None)
    ensures LookupNumber(available, Put(available, entries, slot, Number(number)), slot) == (if available then Some(number) else None)
    ensures LookupFlag(available, Put(available, entries, slot, Flag(flag)), slot) == (if available then Some(flag) else None)
  {
  }

  /** A write to one slot leaves what every other key reads unchanged. */
  lemma WriteLeavesOtherSlots(available: bool, entries: Entries, slot: Slot, value: StoredValue, other: Slot)
    requires other != slot
    ensures LookupText(available, Put(available, entries, slot, value), other) == LookupText(available, entries, other)
    ensures LookupNumber(available, Put(available, entries, slot, value), other) == LookupNumber(available, entries, other)
    ensures LookupFlag(available, Put(available, entries, slot, value), other) == LookupFlag(available, entries, other)
  {
  }

  /** After a removal the slot reads nil, whatever it held. */
  lemma RemovedSlotReadsNil(available: bool, entries: Entries, slot: Slot)
    ensures LookupText(available, Remove(available, entries, slot), slot) == None
    ensures LookupNumber(available, Remove(available, entries, slot), slot) == None
    ensures LookupFlag(available, Remove(available, entries, slot), slot) == None
  {
  }

  /** A removal from one slot leaves what every other key reads unchanged. */
  lemma RemoveLeavesOtherSlots(available: bool, entries: Entries, slot: Slot, other: Slot)
    requires other != slot
    ensures LookupText(available, Remove(available, entries, slot), other) == LookupText(available, entries, other)
    ensures LookupNumber(available, Remove(available, entries, slot), other) == LookupNumber(available, entries, other)
    ensures LookupFlag(available, Remove(available, entries, slot), other) == LookupFlag(available, entries, other)
  {
  }

  /** A typed read of a value of another type gives nil. */
  lemma WrongTypeReadsNil(available: bool, entries: Entries, slot: Slot)
    requires slot in entries
    ensures !entries[slot].Number? ==> LookupNumber(available, entries, slot) == None
    ensures !entries[slot].Flag? ==> LookupFlag(available, entries, slot) == None
    ensures !entries[slot].Text? ==> LookupText(available, entries, slot) == None
  {
  }

  /** `KeyboardSharedState`: the suite's contents and whether `UserDefaults(suiteName:)` succeeds. */
  class SharedStore {
    const available: bool
    var entries: Entries

    constructor (available: bool, entries: Entries)
      ensures this.available == available && this.entries == entries
    {
      this.available := available;
      this.entries := entries;
    }

    method WriteTranscript(text: string)
      modifies this
      ensures entries == Put(available, old(entries), TranscriptSlot, Text(text))
    {
      if available {
        entries := entries[TranscriptSlot := Text(text)];
      }
    }

    function ReadTranscript(): (r: Option<string>)
      reads this
      ensures r.Some? ==> available
    {
      LookupText(available, entries, TranscriptSlot)
    }

    method WriteStatusRaw(value: int)
      modifies this
      ensures entries == Put(available, old(entries), StatusSlot, Number(value))
    {
      if available {
        entries := entries[StatusSlot := Number(value)];
      }
    }

    function ReadStatusRaw(): (r: Option<int>)
      reads this
      ensures r.Some? ==> available
    {
      LookupNumber(available, entries, StatusSlot)
    }

    method WriteIsRecording(value: bool)
      modifies this
      ensures entries == Put(available, old(entries), IsRecordingSlot, Flag(value))
    {
      if available {
        entries := entries[IsRecordingSlot := Flag(value)];
      }
    }

    function ReadIsRecording(): (r: Option<bool>)
      reads this
      ensures r.Some? ==> available
    {
      LookupFlag(available, entries, IsRecordingSlot)
    }

    method WriteIsModelLoaded(value: bool)
      modifies this
      ensures entries == Put(available, old(entries), IsModelLoadedSlot, Flag(value))
    {
      if available {
        entries := entries[IsModelLoadedSlot := Flag(value)];
      }
    }

    function ReadIsModelLoaded(): (r: Option<bool>)
      reads this
      ensures r.Some? ==> available
    {
      LookupFlag(available, entries, IsModelLoadedSlot)
    }

    /** A filename is stored; nil removes the slot. */
    method WriteSelectedModelFilename(filename: Option<string>)
      modifies this
      ensures filename.Some? ==> entries == Put(available, old(entries), SelectedModelFilenameSlot, Text(filename.value))
      ensures filename.None? ==> entries == Remove(available, old(entries), SelectedModelFilenameSlot)
    {
      if !available {
        return;
      }
      if filename.Some? {
        entries := entries[SelectedModelFilenameSlot := Text(filename.value)];
      } else {
        entries := entries - {SelectedModelFilenameSlot};
      }
    }

    function ReadSelectedModelFilename(): (r: Option<string>)
      reads this
      ensures r.Some? ==> available
    {
      LookupText(available, entries, SelectedModelFilenameSlot)
    }
  }
}
