/** The adults-only gate (components/AgeVerificationModal.tsx): it shows
    until the visitor confirms, and remembers the confirmation in the
    browser's key-value storage. */
module AgeVerification {
  import opened Common
  import opened Text

  /** The storage key of the confirmation. */
  const AgeKey: string := "elysium_age_verified"

  /** The value a confirmation stores. */
  const ConfirmedValue: string := "true"

  /** `getItem(key)` on a store's contents: `null` for a missing key. */
  function Lookup(items: map<string, string>, key: string): (v: Option<string>)
    ensures v.Some? <==> key in items
    ensures v.Some? ==> v.value == items[key]
  {
    if key in items then Some(items[key]) else None
  }

  /** The mount effect's test: the gate shows when the stored value is
      missing or empty. */
  predicate VisibleFor(items: map<string, string>) {
    !Truthy(Lookup(items, AgeKey))
  }

  /** A store the confirmation was written to never shows the gate again,
      and writing the confirmation twice leaves the store as once. */
  lemma ConfirmationSticks(items: map<string, string>)
    ensures !VisibleFor(items[AgeKey := ConfirmedValue])
    ensures items[AgeKey := ConfirmedValue][AgeKey := ConfirmedValue] == items[AgeKey := ConfirmedValue]
  {
    assert Lookup(items[AgeKey := ConfirmedValue], AgeKey) == Some(ConfirmedValue);
  }

  /** The browser's `localStorage`. */
  class Storage {
    var items: map<string, string>

    constructor (initial: map<string, string>)
      ensures items == initial
    {
      items := initial;
    }

    function GetItem(key: string): (v: Option<string>)
      reads this
      ensures v.Some? <==> key in items
      ensures key in items ==> v == Some(items[key])
    {
      Lookup(items, key)
    }

    method SetItem(key: string, value: string)
      modifies this`items
      ensures items == old(items)[key := value]
    {
      items := items[key := value];
    }
  }

  class AgeVerificationModal {
    const storage: Storage
    var isVisible: bool

    /** The first render: hidden until the mount effect has run. */
    constructor (storage: Storage)
      ensures this.storage == storage && !isVisible
    {
      this.storage := storage;
      isVisible := false;
    }

    /** The mount effect. */
    method Mount()
      modifies this`isVisible
      ensures isVisible == (old(isVisible) || VisibleFor(storage.items))
    {
      var isVerified := storage.GetItem(AgeKey);
      if !Truthy(isVerified) {
        isVisible := true;
      }
    }

    /** `handleConfirm` */
    method HandleConfirm()
      modifies this`isVisible, storage`items
      ensures storage.items == old(storage.items)[AgeKey := ConfirmedValue]
      ensures !isVisible
    {
      storage.SetItem(AgeKey, ConfirmedValue);
      isVisible := false;
    }

    /** The modal renders nothing unless it is visible. */
    predicate Renders()
      reads this
    {
      isVisible
    }
  }

  /** A visitor confirms on one visit and comes back: the new gate, reading
      the same storage, stays hidden, whatever the storage held before. */
  method ConfirmThenRemount(initial: map<string, string>) returns (firstVisible: bool, secondVisible: bool)
    ensures firstVisible == VisibleFor(initial)
    ensures !secondVisible
  {
    var storage := new Storage(initial);
    var first := new AgeVerificationModal(storage);
    first.Mount();
    firstVisible := first.Renders();
    first.HandleConfirm();
    var second := new AgeVerificationModal(storage);
    second.Mount();
    ConfirmationSticks(initial);
    secondVisible := second.Renders();
  }
}
