/** The advanced-mode switch (src/contexts/UiSettingsContext.jsx), kept in memory and
    mirrored to `sessionStorage`, which is modelled as a map that reads or writes may fail on. */
module UiSettings {
  import opened Wrappers

  const AdvancedKey := "ambiback.ui.advanced"

  /** The outcome of reading the stored flag: the storage threw, or it returned a value or
      nothing. */
  datatype StorageRead = ReadError | Stored(value: Option<string>)

  function ReadStorage(session: map<string, string>, fails: bool): (r: StorageRead)
    ensures fails <==> r == ReadError
    ensures !fails && AdvancedKey in session ==> r == Stored(Some(session[AdvancedKey]))
    ensures !fails && AdvancedKey !in session ==> r == Stored(None)
  {
    if fails then ReadError
    else if AdvancedKey in session then Stored(Some(session[AdvancedKey]))
    else Stored(None)
  }

  /** `readInitialAdvanced`: on exactly when the stored string is `'true'`; a read error
      gives off. */
  function ReadInitialAdvanced(read: StorageRead): (r: bool)
    ensures r <==> read == Stored(Some("true"))
    ensures read == ReadError ==> !r
  {
    match read
    case ReadError => false
    case Stored(v) => v == Some("true")
  }

  /** `String(value)` for a boolean. */
  function BoolString(b: bool): (r: string)
    ensures b ==> r == "true"
    ensures !b ==> r != "true" && r == "false"
  {
    if b then "true" else "false"
  }

  /** What `setAdvanced(v)` writes is read back as `v`. */
  lemma AdvancedRoundTrip(v: bool, session: map<string, string>)
    ensures ReadInitialAdvanced(ReadStorage(session[AdvancedKey := BoolString(v)], false)) == v
  {
  }

  class UiSettingsProvider {
    var advanced: bool
    var session: map<string, string>

    constructor(session0: map<string, string>, readFails: bool)
      ensures advanced == ReadInitialAdvanced(ReadStorage(session0, readFails))
      ensures session == session0
    {
      advanced := ReadInitialAdvanced(ReadStorage(session0, readFails));
      session := session0;
    }

    /** `setAdvanced`: the in-memory flag always takes the new value; the stored copy is
        written unless storage refuses, which is ignored. */
    method SetAdvanced(v: bool, writeFails: bool)
      modifies this
      ensures advanced == v
      ensures writeFails ==> session == old(session)
      ensures !writeFails ==> session == old(session)[AdvancedKey := BoolString(v)]
    {
      advanced := v;
      if !writeFails {
        session := session[AdvancedKey := BoolString(v)];
      }
    }
  }

  /** A page reload after a successful `setAdvanced(v)` starts with `v`. */
  method ReloadAfterSet(v: bool, session0: map<string, string>, firstReadFails: bool) returns (after: bool)
    ensures after == v
  {
    var p := new UiSettingsProvider(session0, firstReadFails);
    p.SetAdvanced(v, false);
    var q := new UiSettingsProvider(p.session, false);
    AdvancedRoundTrip(v, session0);
    after := q.advanced;
  }
}
