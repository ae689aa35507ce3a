/**
 * The key settings dialog: the single browser-storage slot that the gateway
 * reads, the text in the key field, whether a key is connected, and whether
 * the dialog is open.
 */
module ApiKeySettings {
  import opened Wrappers
  import Gateway

  /** Keys shorter than this are refused. */
  const MinKeyLength: nat := 10

  function Min(a: nat, b: nat): nat { if a < b then a else b }

  /** `key.slice(0, 8) + '...' + key.slice(-4)`: both slices are cut short on a short key. */
  function Mask(key: string): (m: string)
    ensures |m| == Min(8, |key|) + 3 + Min(4, |key|)
    ensures m[..Min(8, |key|)] == key[..Min(8, |key|)]
    ensures m[Min(8, |key|)..Min(8, |key|) + 3] == "..."
    ensures m[|m| - Min(4, |key|)..] == key[|key| - Min(4, |key|)..]
  {
    var head := if |key| < 8 then key else key[..8];
    var tail := if |key| < 4 then key else key[|key| - 4..];
    head + "..." + tail
  }

  /** The mask of every key long enough to be saved is 15 characters, its first 8 and last 4 around the ellipsis. */
  lemma MaskOfSavedKey(key: string)
    requires |key| >= MinKeyLength
    ensures Mask(key) == key[..8] + "..." + key[|key| - 4..]
    ensures |Mask(key)| == 15
  {
  }

  class Settings {
    var storage: Option<string>
    var apiKey: string
    var hasApiKey: bool
    var isOpen: bool

    /** The connected flag is what the gateway will see in the storage slot. */
    ghost predicate Valid()
      reads this
    {
      hasApiKey == Gateway.HasKey(storage)
    }

    /** Mounting the dialog: read the slot, flag it, and keep a stored key in the field state only masked. */
    constructor Load(stored: Option<string>)
      ensures Valid()
      ensures storage == stored && !isOpen
      ensures hasApiKey <==> stored.Some? && stored.value != ""
      ensures apiKey == if hasApiKey then Mask(stored.value) else ""
    {
      storage := stored;
      isOpen := false;
      hasApiKey := stored.Some? && stored.value != "";
      apiKey := if stored.Some? && stored.value != "" then Mask(stored.value) else "";
    }

    /** Opening or closing the dialog (the trigger button, Cancel, Close). */
    method SetOpen(open: bool)
      requires Valid()
      modifies this`isOpen
      ensures Valid()
      ensures isOpen == open
    {
      isOpen := open;
    }

    /** Typing into the key field. */
    method Edit(value: string)
      requires Valid()
      modifies this`apiKey
      ensures Valid()
      ensures apiKey == value
    {
      apiKey := value;
    }

    /** Save: a key of fewer than ten characters changes nothing; any other is stored verbatim and the dialog closes. */
    method SaveApiKey() returns (saved: bool)
      requires Valid()
      modifies this
      ensures Valid()
      ensures saved <==> old(apiKey) != "" && |old(apiKey)| >= MinKeyLength
      ensures apiKey == old(apiKey)
      ensures saved ==> storage == Some(apiKey) && hasApiKey && !isOpen
      ensures !saved ==> storage == old(storage) && hasApiKey == old(hasApiKey) && isOpen == old(isOpen)
    {
      if apiKey == "" || |apiKey| < MinKeyLength {
        return false;
      }
      storage := Some(apiKey);
      hasApiKey := true;
      isOpen := false;
      saved := true;
    }

    /** Remove: clear the slot and the field, disconnect, close; the gateway then has no key. */
    method RemoveApiKey()
      requires Valid()
      modifies this
      ensures Valid()
      ensures storage == None && apiKey == "" && !hasApiKey && !isOpen
      ensures !Gateway.HasKey(storage)
    {
      storage := None;
      apiKey := "";
      hasApiKey := false;
      isOpen := false;
    }
  }
}
