/** The Settings page of src/components/Settings.jsx: loading accounts and profile, the
    per-entry edit map and its saves, the tab switch with its transition lock, account
    deletion, the redirect when no account is left, and the profile test. */
module Settings {
  import opened Common

  /** A bank account; `balance` as the text its field shows. */
  datatype Account = Account(id: int, bankName: string, accountNumber: string, balance: string)

  /** The profile body: each field "" when absent or empty. */
  datatype ProfileFields = ProfileFields(firstName: string, lastName: string, email: string)

  /** The profile state: the parsed body, `None` for a JSON `null`. */
  type Profile = Option<ProfileFields>

  /** `hasProfile`: a profile with a truthy first name, last name or email. */
  predicate HasProfile(p: Profile): (b: bool)
    ensures b ==> p.Some?
    ensures p.Some? ==> (b <==> p.value != ProfileFields("", "", ""))
  {
    p.Some? && (p.value.firstName != "" || p.value.lastName != "" || p.value.email != "")
  }

  /** What an edit belongs to. */
  datatype EditKind = AccountEdit | ProfileEdit

  /** The key of an entry of `editing`: `${type}-${id}`. */
  function EditKey(kind: EditKind, id: string): (k: string)
    ensures kind == AccountEdit ==> k == "account-" + id
    ensures kind == ProfileEdit ==> k == "profile-" + id
  {
    (if kind == AccountEdit then "account" else "profile") + "-" + id
  }

  /** `editing`: per entry key, the edited fields. An entry set to `undefined` is modelled as
      absent, which every read treats the same way. */
  type Edits = map<string, map<string, string>>

  /** `handleEditChange`'s update: one field of one entry. */
  function EditChange(edits: Edits, key: string, field: string, value: string): (r: Edits)
    ensures key in r && field in r[key] && r[key][field] == value
    ensures forall f :: f != field ==> (f in r[key] <==> key in edits && f in edits[key])
    ensures forall f :: f != field && f in r[key] ==> r[key][f] == edits[key][f]
    ensures forall k :: k != key ==> (k in r <==> k in edits) && (k in r ==> r[k] == edits[k])
  {
    var entry := if key in edits then edits[key] else map[];
    edits[key := entry[field := value]]
  }

  /** The successful save's update: that entry set to `undefined`. */
  function ClearEntry(edits: Edits, key: string): (r: Edits)
    ensures key !in r
    ensures forall k :: k != key ==> (k in r <==> k in edits) && (k in r ==> r[k] == edits[k])
  {
    edits - {key}
  }

  /** The value a field shows: `editing[key]?.[field] ?? value ?? ""`, where `original` is
      the loaded value (`None` when null or absent). `??` keeps an edited "". */
  function Displayed(edits: Edits, key: string, field: string, original: Option<string>): (v: string)
    ensures key in edits && field in edits[key] ==> v == edits[key][field]
    ensures (key !in edits || field !in edits[key]) && original.Some? ==> v == original.value
    ensures (key !in edits || field !in edits[key]) && original.None? ==> v == ""
  {
    if key in edits && field in edits[key] then edits[key][field]
    else if original.Some? then original.value
    else ""
  }

  /** A field shows what was typed into it; the other fields and entries show what they did. */
  lemma EditShows(edits: Edits, key: string, field: string, value: string, original: Option<string>)
    ensures Displayed(EditChange(edits, key, field, value), key, field, original) == value
    ensures forall k, f :: (k, f) != (key, field) ==>
              Displayed(EditChange(edits, key, field, value), k, f, original) == Displayed(edits, k, f, original)
  {
  }

  /** After a successful save, the entry's fields show the loaded values again. */
  lemma ClearShowsOriginal(edits: Edits, key: string, field: string, original: Option<string>)
    ensures Displayed(ClearEntry(edits, key), key, field, original) == (if original.Some? then original.value else "")
  {
  }

  /** The tab bar: `activeTab` and `isTransitioning`. */
  datatype Tabs = Tabs(active: int, transitioning: bool)

  /** `handleTabChange(newTab)`: ignored for the current tab or during a transition;
      otherwise the tab changes and a transition starts. */
  function TabChange(t: Tabs, newTab: int): (r: Tabs)
    ensures t.active == newTab || t.transitioning ==> r == t
    ensures t.active != newTab && !t.transitioning ==> r.active == newTab && r.transitioning
  {
    if newTab == t.active || t.transitioning then t else Tabs(newTab, true)
  }

  /** Only one tab change goes through per transition: a second click before the timer ends
      the transition is ignored. */
  lemma OneChangePerTransition(t: Tabs, a: int, b: int)
    requires TabChange(t, a) != t
    ensures TabChange(TabChange(t, a), b) == TabChange(t, a)
  {
  }

  /** The redirect effect: once loading is over and no account is left, a replacing navigation
      to `/add-account`. */
  function AccountsRedirect(loading: bool, accounts: seq<Account>): (nav: Option<Navigation>)
    ensures nav.Some? <==> !loading && |accounts| == 0
    ensures nav.Some? ==> nav.value == Navigate("/add-account", true)
  {
    if !loading && |accounts| == 0 then Some(Navigate("/add-account", true)) else None
  }

  /** The accounts left after deleting the one held in `showDeleteConfirm` (`None` when that
      is `false`, which matches no id). */
  function WithoutAccount(accounts: seq<Account>, target: Option<int>): (r: seq<Account>)
    ensures |r| <= |accounts|
    ensures forall a :: a in r <==> a in accounts && Some(a.id) != target
  {
    Filter(accounts, (a: Account) => Some(a.id) != target)
  }

  /** With no account selected, deleting keeps every account. */
  lemma WithoutNothing(accounts: seq<Account>)
    ensures WithoutAccount(accounts, None) == accounts
  {
    FilterKeepsAll(accounts, (a: Account) => Some(a.id) != None);
  }

  datatype AlertKind = Info | Success | Failure

  datatype Alert = Alert(message: string, kind: AlertKind)

  /** The value a loading or refreshing request leaves: the body on a 2xx, the empty value on
      any other status. */
  function OrEmpty<T>(reply: Fetch<T>, empty: T): (r: T)
    requires !reply.Thrown?
    ensures reply.Ok? ==> r == reply.payload
    ensures reply.NotOk? ==> r == empty
  {
    if reply.Ok? then reply.payload else empty
  }

  class SettingsPage {
    var accounts: seq<Account>
    var profile: Profile
    var edits: Edits
    var alert: Alert
    var loading: bool
    var showDeleteConfirm: Option<int>
    var tabs: Tabs

    constructor ()
      ensures accounts == [] && profile == Some(ProfileFields("", "", "")) && edits == map[]
      ensures alert == Alert("", Info) && loading && showDeleteConfirm.None? && tabs == Tabs(0, false)
    {
      accounts := [];
      profile := Some(ProfileFields("", "", ""));
      edits := map[];
      alert := Alert("", Info);
      loading := true;
      showDeleteConfirm := None;
      tabs := Tabs(0, false);
    }

    /** The loading effect: accounts, then profile. A non-2xx status gives `[]` or `{}`; a
        thrown error stops the sequence where it happens and raises an alert. */
    method Load(accReply: Fetch<seq<Account>>, profReply: Fetch<Profile>)
      modifies this
      ensures !loading
      ensures accounts == (if accReply.Thrown? then old(accounts) else OrEmpty(accReply, []))
      ensures profile == (if accReply.Thrown? || profReply.Thrown? then old(profile)
                          else OrEmpty(profReply, Some(ProfileFields("", "", ""))))
      ensures alert == (if accReply.Thrown? || profReply.Thrown? then Alert("Failed to load settings data.", Failure)
                        else old(alert))
      ensures edits == old(edits) && tabs == old(tabs) && showDeleteConfirm == old(showDeleteConfirm)
    {
      loading := true;
      if accReply.Thrown? {
        alert := Alert("Failed to load settings data.", Failure);
      } else {
        accounts := if accReply.Ok? then accReply.payload else [];
        if profReply.Thrown? {
          alert := Alert("Failed to load settings data.", Failure);
        } else {
          profile := if profReply.Ok? then profReply.payload else Some(ProfileFields("", "", ""));
        }
      }
      loading := false;
    }

    /** `handleEditChange(type, id, field, value)`. */
    method EditField(kind: EditKind, id: string, field: string, value: string)
      modifies this
      ensures edits == EditChange(old(edits), EditKey(kind, id), field, value)
      ensures accounts == old(accounts) && profile == old(profile) && alert == old(alert)
      ensures loading == old(loading) && showDeleteConfirm == old(showDeleteConfirm)
      ensures tabs == old(tabs)
    {
      var key := EditKey(kind, id);
      var entry := if key in edits then edits[key] else map[];
      edits := edits[key := entry[field := value]];
    }

    /** `handleSave(type, id)`. `reply` is the PATCH; after a 2xx, the edited list is refreshed
        from `accRefresh` (an account) or `profRefresh` (the profile). */
    method Save(kind: EditKind, id: string, reply: Fetch<()>, accRefresh: Fetch<seq<Account>>, profRefresh: Fetch<Profile>)
      modifies this
      ensures !loading
      ensures edits == (if reply.Ok? then ClearEntry(old(edits), EditKey(kind, id)) else old(edits))
      ensures reply.NotOk? ==> alert == Alert("Failed to save changes.", Failure)
      ensures reply.Thrown? ==> alert == Alert("Error saving changes.", Failure)
      ensures !reply.Ok? ==> accounts == old(accounts) && profile == old(profile)
      ensures reply.Ok? && kind == AccountEdit ==>
                profile == old(profile) &&
                accounts == (if accRefresh.Thrown? then old(accounts) else OrEmpty(accRefresh, [])) &&
                alert == (if accRefresh.Thrown? then Alert("Error saving changes.", Failure) else Alert("Changes saved!", Success))
      ensures reply.Ok? && kind == ProfileEdit ==>
                accounts == old(accounts) &&
                profile == (if profRefresh.Thrown? then old(profile) else OrEmpty(profRefresh, Some(ProfileFields("", "", "")))) &&
                alert == (if profRefresh.Thrown? then Alert("Error saving changes.", Failure) else Alert("Changes saved!", Success))
      ensures tabs == old(tabs) && showDeleteConfirm == old(showDeleteConfirm)
    {
      loading := true;
      match reply {
        case Ok(_) =>
          alert := Alert("Changes saved!", Success);
          edits := edits - {EditKey(kind, id)};
          if kind == AccountEdit {
            if accRefresh.Thrown? {
              alert := Alert("Error saving changes.", Failure);
            } else {
              accounts := if accRefresh.Ok? then accRefresh.payload else [];
            }
          } else {
            if profRefresh.Thrown? {
              alert := Alert("Error saving changes.", Failure);
            } else {
              profile := if profRefresh.Ok? then profRefresh.payload else Some(ProfileFields("", "", ""));
            }
          }
        case NotOk =>
          alert := Alert("Failed to save changes.", Failure);
        case Thrown =>
          alert := Alert("Error saving changes.", Failure);
      }
      loading := false;
    }

    /** `handleTabChange(newTab)`. */
    method ChangeTab(newTab: int)
      modifies this
      ensures tabs == TabChange(old(tabs), newTab)
      ensures accounts == old(accounts) && profile == old(profile) && edits == old(edits)
      ensures alert == old(alert) && loading == old(loading)
      ensures showDeleteConfirm == old(showDeleteConfirm)
    {
      if newTab == tabs.active || tabs.transitioning {
        return;
      }
      tabs := Tabs(newTab, true);
    }

    /** The transition timer. */
    method EndTransition()
      modifies this
      ensures tabs == old(tabs).(transitioning := false)
      ensures accounts == old(accounts) && profile == old(profile) && edits == old(edits)
      ensures alert == old(alert) && loading == old(loading)
      ensures showDeleteConfirm == old(showDeleteConfirm)
    {
      tabs := tabs.(transitioning := false);
    }

    /** `handleDeleteAccount(accountId)` opens the confirmation; Cancel closes it. */
    method AskDelete(accountId: Option<int>)
      modifies this
      ensures showDeleteConfirm == accountId
      ensures accounts == old(accounts) && profile == old(profile) && edits == old(edits)
      ensures alert == old(alert) && loading == old(loading) && tabs == old(tabs)
    {
      showDeleteConfirm := accountId;
    }

    /** `confirmDeleteAccount`: a 2xx removes the account held in `showDeleteConfirm`, closes
        the confirmation and schedules a replacing navigation to `/add-account`; a failure
        keeps the list and raises an alert. */
    method ConfirmDelete(reply: Fetch<()>) returns (nav: Option<Navigation>)
      modifies this
      ensures !loading
      ensures reply.Ok? ==> accounts == WithoutAccount(old(accounts), old(showDeleteConfirm))
                            && showDeleteConfirm.None? && alert == Alert("Account deleted.", Success)
                            && nav == Some(Navigate("/add-account", true))
      ensures reply.NotOk? ==> accounts == old(accounts) && showDeleteConfirm == old(showDeleteConfirm)
                               && alert == Alert("Failed to delete account.", Failure) && nav.None?
      ensures reply.Thrown? ==> accounts == old(accounts) && showDeleteConfirm == old(showDeleteConfirm)
                                && alert == Alert("Network error.", Failure) && nav.None?
      ensures edits == old(edits) && profile == old(profile) && tabs == old(tabs)
    {
      loading := true;
      nav := None;
      match reply {
        case Ok(_) =>
          var target := showDeleteConfirm;
          accounts := Filter(accounts, (a: Account) => Some(a.id) != target);
          showDeleteConfirm := None;
          alert := Alert("Account deleted.", Success);
          nav := Some(Navigate("/add-account", true));
        case NotOk =>
          alert := Alert("Failed to delete account.", Failure);
        case Thrown =>
          alert := Alert("Network error.", Failure);
      }
      loading := false;
    }
  }
}
