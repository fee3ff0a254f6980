/**
  The effect the pages rely on from the browser-local store: a profile slot
  that `saveProfile` overwrites, and the sequence of entries handed to
  `saveToHistory`, in the order of the calls. How the store serialises them
  and in which order it lists them back is not part of this model.
 */
module Storage {
  import opened Wrappers
  import opened Types

  class LocalStore {
    var profile: Option<UserProfile>
    var history: seq<HistoryEntry>

    constructor ()
      ensures profile == None && history == []
    {
      profile := None;
      history := [];
    }

    /** `saveProfile`: the last saved profile wins; history is untouched. */
    method SaveProfile(p: UserProfile)
      modifies this
      ensures profile == Some(p)
      ensures history == old(history)
    {
      profile := Some(p);
    }

    /** `saveToHistory`: exactly one entry more; the profile is untouched. */
    method SaveToHistory(e: HistoryEntry)
      modifies this
      ensures history == old(history) + [e]
      ensures profile == old(profile)
    {
      history := history + [e];
    }
  }
}
