/**
 * A user's preferences: a mutable record whose theme, language and
 * notification flag are overwritten in place by one update operation.
 */
module Domain {
  import opened Entities

  /** The value of a `Preferences` object. Kotlin data-class equality compares
      exactly these four properties. */
  datatype PreferencesRecord = PreferencesRecord(
    userId: User,
    notificationsEnabled: bool,
    preferredLanguage: string,
    theme: string)

  /** The record after `updatePreferences(newTheme, newLanguage,
      newNotificationsEnabled)`: the three arguments overwrite their fields,
      whatever they and the old values are, and the user is kept. */
  function Updated(p: PreferencesRecord, newTheme: string, newLanguage: string,
                   newNotificationsEnabled: bool): (q: PreferencesRecord)
    ensures q.theme == newTheme
    ensures q.preferredLanguage == newLanguage
    ensures q.notificationsEnabled == newNotificationsEnabled
    ensures q.userId == p.userId
  {
    p.(theme := newTheme, preferredLanguage := newLanguage,
       notificationsEnabled := newNotificationsEnabled)
  }

  /** Updating twice with the same arguments gives what updating once gives. */
  lemma UpdatedIdempotent(p: PreferencesRecord, t: string, l: string, n: bool)
    ensures Updated(Updated(p, t, l, n), t, l, n) == Updated(p, t, l, n)
  {
  }

  /** The last update wins: the first leaves no trace once a second follows. */
  lemma UpdatedLastWriteWins(p: PreferencesRecord, t1: string, l1: string, n1: bool,
                             t2: string, l2: string, n2: bool)
    ensures Updated(Updated(p, t1, l1, n1), t2, l2, n2) == Updated(p, t2, l2, n2)
  {
  }

  /** The result depends only on the user and the arguments, not on the old
      theme, language or flag; empty strings are accepted like any other. */
  lemma UpdatedForgetsOldValues(p: PreferencesRecord, q: PreferencesRecord,
                                t: string, l: string, n: bool)
    requires p.userId == q.userId
    ensures Updated(p, t, l, n) == Updated(q, t, l, n)
  {
  }

  class Preferences {
    var userId: User
    var notificationsEnabled: bool
    var preferredLanguage: string
    var theme: string

    /** The current value of the object. */
    function Record(): PreferencesRecord
      reads this
    {
      PreferencesRecord(userId, notificationsEnabled, preferredLanguage, theme)
    }

    constructor (userId: User, notificationsEnabled: bool, preferredLanguage: string, theme: string)
      ensures Record() == PreferencesRecord(userId, notificationsEnabled, preferredLanguage, theme)
    {
      this.userId := userId;
      this.notificationsEnabled := notificationsEnabled;
      this.preferredLanguage := preferredLanguage;
      this.theme := theme;
    }

    /** `updatePreferences`: overwrites the three fields in place and touches
        nothing else, `userId` included. */
    method UpdatePreferences(newTheme: string, newLanguage: string, newNotificationsEnabled: bool)
      modifies this`theme, this`preferredLanguage, this`notificationsEnabled
      ensures Record() == Updated(old(Record()), newTheme, newLanguage, newNotificationsEnabled)
      ensures theme == newTheme && preferredLanguage == newLanguage
      ensures notificationsEnabled == newNotificationsEnabled
      ensures userId == old(userId)
    {
      this.theme := newTheme;
      this.preferredLanguage := newLanguage;
      this.notificationsEnabled := newNotificationsEnabled;
    }
  }
}
