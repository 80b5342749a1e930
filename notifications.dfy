/** The notification settings screen
    (src/App/Pages/Profile/NotificationsScreen.tsx): one switch per setting id,
    all on at first, each flipped by its switch. */
module Notifications {

  const SettingIds: seq<string> := ["orders", "promotions", "reminders", "newsletter"]

  /** Every listed id switched on. */
  function InitialSettings(): (settings: map<string, bool>)
    ensures settings.Keys == set id | id in SettingIds
    ensures forall id :: id in settings ==> settings[id]
  {
    map id | id in SettingIds :: true
  }

  /** `{ ...prev, [id]: !prev[id] }`: the id's value negated; an id not in the
      map reads as undefined, so it is added switched on. */
  function Toggled(settings: map<string, bool>, id: string): (r: map<string, bool>)
    ensures r.Keys == settings.Keys + {id}
    ensures id in settings ==> r[id] == !settings[id]
    ensures id !in settings ==> r[id]
    ensures forall other :: other in settings && other != id ==> r[other] == settings[other]
  {
    settings[id := !(id in settings && settings[id])]
  }

  /** Toggling a present id twice gives back the map. */
  lemma {:induction false} ToggleTwice(settings: map<string, bool>, id: string)
    requires id in settings
    ensures Toggled(Toggled(settings, id), id) == settings
  {
    var once := Toggled(settings, id);
    var twice := Toggled(once, id);
    assert twice.Keys == settings.Keys;
    forall k | k in settings ensures twice[k] == settings[k] {
    }
  }

  /** Toggles of different ids commute. */
  lemma TogglesCommute(settings: map<string, bool>, a: string, b: string)
    requires a != b
    ensures Toggled(Toggled(settings, a), b) == Toggled(Toggled(settings, b), a)
  {
    var ab := Toggled(Toggled(settings, a), b);
    var ba := Toggled(Toggled(settings, b), a);
    assert ab.Keys == ba.Keys;
    forall k | k in ab ensures ab[k] == ba[k] {
    }
  }

  class NotificationsScreen {
    var settings: map<string, bool>

    constructor()
      ensures settings == InitialSettings()
    {
      settings := InitialSettings();
    }

    /** `toggleSetting` */
    method ToggleSetting(id: string)
      modifies this
      ensures settings == Toggled(old(settings), id)
    {
      settings := settings[id := !(id in settings && settings[id])];
    }
  }
}
