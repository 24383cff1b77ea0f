/** The settings page: the form state loaded from the signed-in user and the
    stored profile row, the Cancel button, and the update payloads of the
    account, privacy and notification cards. */
module SettingsPage {
  import opened Js
  import AuthContext

  /** The stored profile row. A missing or `null` column is `None`. */
  datatype ProfileRow = ProfileRow(
    bio: Option<string>, coverPhoto: Option<string>, location: Option<string>, website: Option<string>,
    profilePrivacy: Option<string>, messagePrivacy: Option<string>, postPrivacy: Option<string>,
    showOnlineStatus: Option<bool>, showLastSeen: Option<bool>, allowTagging: Option<bool>,
    emailNotifications: Option<bool>, pushNotifications: Option<bool>,
    notificationSettings: Option<map<string, bool>>)

  datatype Form = Form(
    username: string, fullName: string, bio: string, email: string, avatar: string,
    coverPhoto: string, location: string, website: string,
    profilePrivacy: string, messagePrivacy: string, postPrivacy: string,
    showOnlineStatus: bool, showLastSeen: bool, allowTagging: bool,
    emailNotifications: bool, pushNotifications: bool,
    likes: bool, comments: bool, friendRequests: bool, messages: bool, tags: bool)

  /** The initial `useState` values. */
  const InitialForm := Form("", "", "", "", "", "", "", "", "public", "everyone", "public",
                            true, true, true, true, true, true, true, true, true, true)

  datatype Page = Page(form: Form, profile: Option<ProfileRow>, loading: bool, saving: bool, toast: Option<Toast>)

  const Initial := Page(InitialForm, None, true, false, None)

  /** `stored !== false`: on unless stored as exactly `false`. */
  predicate NotOff(stored: Option<bool>) {
    stored != Some(false)
  }

  /** `data.notification_settings?.<key> !== false`. */
  predicate NotifyOn(ns: Option<map<string, bool>>, key: string) {
    !(ns.Some? && key in ns.value && !ns.value[key])
  }

  /** The seven account fields of the form. */
  datatype Account = Account(username: string, fullName: string, avatar: string, bio: string,
                             coverPhoto: string, location: string, website: string)

  function AccountOf(f: Form): Account {
    Account(f.username, f.fullName, f.avatar, f.bio, f.coverPhoto, f.location, f.website)
  }

  /** Everything of the form except the seven account fields. */
  function Rest(f: Form): Form {
    f.(username := "", fullName := "", avatar := "", bio := "", coverPhoto := "", location := "", website := "")
  }

  /** The form the load effect leaves, given the user and the row fetched. */
  function Loaded(f: Form, u: AuthContext.User, data: Option<ProfileRow>): (r: Form)
    ensures r.username == Lookup(u.metadata, "username", "") && r.fullName == Lookup(u.metadata, "full_name", "")
    ensures r.email == OrElse(u.email, "") && r.avatar == Lookup(u.metadata, "avatar", "")
    ensures data.None? ==> r == f.(username := r.username, fullName := r.fullName, email := r.email, avatar := r.avatar)
  {
    var f1 := f.(username := Lookup(u.metadata, "username", ""), fullName := Lookup(u.metadata, "full_name", ""),
                 email := OrElse(u.email, ""), avatar := Lookup(u.metadata, "avatar", ""));
    match data
    case None => f1
    case Some(d) =>
      f1.(bio := OrElse(d.bio, ""), coverPhoto := OrElse(d.coverPhoto, ""),
          location := OrElse(d.location, ""), website := OrElse(d.website, ""),
          profilePrivacy := OrElse(d.profilePrivacy, "public"),
          messagePrivacy := OrElse(d.messagePrivacy, "everyone"),
          postPrivacy := OrElse(d.postPrivacy, "public"),
          showOnlineStatus := NotOff(d.showOnlineStatus), showLastSeen := NotOff(d.showLastSeen),
          allowTagging := NotOff(d.allowTagging),
          emailNotifications := NotOff(d.emailNotifications), pushNotifications := NotOff(d.pushNotifications),
          likes := NotifyOn(d.notificationSettings, "likes"),
          comments := NotifyOn(d.notificationSettings, "comments"),
          friendRequests := NotifyOn(d.notificationSettings, "friend_requests"),
          messages := NotifyOn(d.notificationSettings, "messages"),
          tags := NotifyOn(d.notificationSettings, "tags"))
  }

  /** What loading a row gives: text columns default to the empty string, the
      three selects to `public`, `everyone` and `public` when missing or empty,
      and every switch is on unless stored as exactly `false`, including when
      there are no notification settings at all. */
  lemma LoadedDefaults(f: Form, u: AuthContext.User, d: ProfileRow)
    ensures var r := Loaded(f, u, Some(d));
            && (d.bio.None? ==> r.bio == "") && (d.website.None? ==> r.website == "")
            && (d.bio.Some? ==> r.bio == d.bio.value)
            && (r.profilePrivacy == "public" <==> d.profilePrivacy.None? || d.profilePrivacy.value in {"", "public"})
            && (r.messagePrivacy == "everyone" <==> d.messagePrivacy.None? || d.messagePrivacy.value in {"", "everyone"})
            && (r.postPrivacy == "public" <==> d.postPrivacy.None? || d.postPrivacy.value in {"", "public"})
            && (!r.showOnlineStatus <==> d.showOnlineStatus == Some(false))
            && (!r.showLastSeen <==> d.showLastSeen == Some(false))
            && (!r.allowTagging <==> d.allowTagging == Some(false))
            && (!r.emailNotifications <==> d.emailNotifications == Some(false))
            && (!r.pushNotifications <==> d.pushNotifications == Some(false))
            && (d.notificationSettings.None? ==> r.likes && r.comments && r.friendRequests && r.messages && r.tags)
            && (!r.likes <==> d.notificationSettings.Some? && "likes" in d.notificationSettings.value
                               && !d.notificationSettings.value["likes"])
  {
  }

  /** `loadProfile` once the profile fetch returned (`Failure` when it
      threw). Without a user nothing happens. */
  function Load(p: Page, user: Option<AuthContext.User>, fetched: Result<Option<ProfileRow>>): (r: Page)
    ensures user.None? ==> r == p
    ensures user.Some? ==> !r.loading && r.saving == p.saving
    ensures user.Some? && fetched.Failure? ==>
              r.form == p.form && r.profile == p.profile
              && r.toast == Some(Toast("Error loading profile", "Could not load your profile information.", true))
    ensures user.Some? && fetched.Success? ==>
              r.profile == fetched.value && r.form == Loaded(p.form, user.value, fetched.value) && r.toast == p.toast
  {
    match user
    case None => p
    case Some(u) =>
      match fetched
      case Failure(_) =>
        p.(loading := false, toast := Some(Toast("Error loading profile", "Could not load your profile information.", true)))
      case Success(data) => p.(form := Loaded(p.form, u, data), profile := data, loading := false)
  }

  /** The Cancel button of the account card. */
  function Cancel(p: Page, user: Option<AuthContext.User>): (r: Page)
    ensures Rest(r.form) == Rest(p.form)
    ensures r.profile == p.profile && r.loading == p.loading && r.saving == p.saving && r.toast == p.toast
    ensures user.None? ==> r.form.username == "" && r.form.fullName == "" && r.form.avatar == ""
    ensures p.profile.None? ==> r.form.bio == "" && r.form.coverPhoto == "" && r.form.location == "" && r.form.website == ""
  {
    var meta := if user.Some? then user.value.metadata else map[];
    var prof := if p.profile.Some? then p.profile.value
                else ProfileRow(None, None, None, None, None, None, None, None, None, None, None, None, None);
    p.(form := p.form.(
      username := Lookup(meta, "username", ""), fullName := Lookup(meta, "full_name", ""),
      avatar := Lookup(meta, "avatar", ""),
      bio := OrElse(prof.bio, ""), coverPhoto := OrElse(prof.coverPhoto, ""),
      location := OrElse(prof.location, ""), website := OrElse(prof.website, "")))
  }

  /** Cancel undoes any edits since the last load that found a row: whatever
      the form went through afterwards, its account fields return to the
      loaded ones while the privacy and notification state stays as edited.
      When the load found no row, the four profile text fields are not
      restored but emptied. */
  lemma CancelRestoresLoaded(p: Page, u: AuthContext.User, data: Option<ProfileRow>, edited: Form)
    ensures var loaded := Load(p, Some(u), Success(data));
            var r := Cancel(loaded.(form := edited), Some(u));
            && Rest(r.form) == Rest(edited)
            && (data.Some? ==> AccountOf(r.form) == AccountOf(loaded.form))
            && (data.None? ==> AccountOf(r.form) == AccountOf(loaded.form).(bio := "", coverPhoto := "", location := "", website := ""))
  {
  }

  // ---- update payloads ----

  /** A value in an update payload. */
  datatype Field = Text(text: string) | Flag(on: bool) | Flags(flags: map<string, bool>)

  /** `handleSaveAccount`'s update. */
  function AccountUpdate(f: Form): (r: map<string, Field>)
    ensures r.Keys == {"username", "full_name", "avatar", "bio", "cover_photo", "location", "website"}
    ensures "email" !in r
    ensures r["username"] == Text(f.username) && r["full_name"] == Text(f.fullName) && r["bio"] == Text(f.bio)
    ensures r["avatar"] == Text(f.avatar) && r["cover_photo"] == Text(f.coverPhoto)
    ensures r["location"] == Text(f.location) && r["website"] == Text(f.website)
  {
    map["username" := Text(f.username), "full_name" := Text(f.fullName), "avatar" := Text(f.avatar),
        "bio" := Text(f.bio), "cover_photo" := Text(f.coverPhoto), "location" := Text(f.location),
        "website" := Text(f.website)]
  }

  /** `handleSavePrivacy`'s update. */
  function PrivacyUpdate(f: Form): (r: map<string, Field>)
    ensures r.Keys == {"profile_privacy", "message_privacy", "post_privacy", "show_online_status", "show_last_seen", "allow_tagging"}
    ensures r["profile_privacy"] == Text(f.profilePrivacy) && r["message_privacy"] == Text(f.messagePrivacy)
    ensures r["post_privacy"] == Text(f.postPrivacy) && r["show_online_status"] == Flag(f.showOnlineStatus)
    ensures r["show_last_seen"] == Flag(f.showLastSeen) && r["allow_tagging"] == Flag(f.allowTagging)
  {
    map["profile_privacy" := Text(f.profilePrivacy), "message_privacy" := Text(f.messagePrivacy),
        "post_privacy" := Text(f.postPrivacy), "show_online_status" := Flag(f.showOnlineStatus),
        "show_last_seen" := Flag(f.showLastSeen), "allow_tagging" := Flag(f.allowTagging)]
  }

  /** `handleSaveNotifications`'s update: two flags and the five per-kind
      switches nested under `notification_settings`. */
  function NotificationUpdate(f: Form): (r: map<string, Field>)
    ensures r.Keys == {"email_notifications", "push_notifications", "notification_settings"}
    ensures r["email_notifications"] == Flag(f.emailNotifications) && r["push_notifications"] == Flag(f.pushNotifications)
    ensures r["notification_settings"].Flags?
    ensures r["notification_settings"].flags.Keys == {"likes", "comments", "friend_requests", "messages", "tags"}
    ensures var m := r["notification_settings"].flags;
            m["likes"] == f.likes && m["comments"] == f.comments && m["friend_requests"] == f.friendRequests
            && m["messages"] == f.messages && m["tags"] == f.tags
  {
    map["email_notifications" := Flag(f.emailNotifications), "push_notifications" := Flag(f.pushNotifications),
        "notification_settings" := Flags(map["likes" := f.likes, "comments" := f.comments,
                                             "friend_requests" := f.friendRequests, "messages" := f.messages,
                                             "tags" := f.tags])]
  }

  datatype Card = AccountCard | PrivacyCard | NotificationCard

  /** A save: the update sent (none without a user) and the toast for the
      error the profile update returned. */
  datatype Saved = Saved(update: Option<map<string, Field>>, toast: Option<Toast>)

  function Save(f: Form, card: Card, user: Option<AuthContext.User>, error: Option<string>): (r: Saved)
    ensures user.None? ==> r == Saved(None, None)
    ensures user.Some? ==> r.update.Some? && r.toast.Some? && (r.toast.value.destructive <==> error.Some?)
    ensures user.Some? && error.Some? ==> r.toast.value.description == error.value
    ensures user.Some? ==> r.update.value == match card
                                              case AccountCard => AccountUpdate(f)
                                              case PrivacyCard => PrivacyUpdate(f)
                                              case NotificationCard => NotificationUpdate(f)
  {
    if user.None? then Saved(None, None)
    else
      var (update, what, done, okText) := match card
        case AccountCard => (AccountUpdate(f), "profile", "Profile updated", "Your profile information has been saved.")
        case PrivacyCard => (PrivacyUpdate(f), "privacy settings", "Privacy settings updated", "Your privacy settings have been saved.")
        case NotificationCard => (NotificationUpdate(f), "notification settings", "Notification settings updated", "Your notification preferences have been saved.");
      var toast := if error.Some? then Toast("Error updating " + what, error.value, true) else Toast(done, okText, false);
      Saved(Some(update), Some(toast))
  }

  /** Loading a row and saving the privacy card untouched writes back what
      was stored, with the load defaults filled in: a stored non-empty level
      and a stored flag come back as they were. */
  lemma LoadThenSavePrivacy(p: Page, u: AuthContext.User, d: ProfileRow)
    ensures var f := Load(p, Some(u), Success(Some(d))).form;
            var up := Save(f, PrivacyCard, Some(u), None).update.value;
            && up["profile_privacy"] == Text(OrElse(d.profilePrivacy, "public"))
            && up["message_privacy"] == Text(OrElse(d.messagePrivacy, "everyone"))
            && up["post_privacy"] == Text(OrElse(d.postPrivacy, "public"))
            && (d.profilePrivacy.Some? && d.profilePrivacy.value != "" ==> up["profile_privacy"] == Text(d.profilePrivacy.value))
            && (d.showOnlineStatus.Some? ==> up["show_online_status"] == Flag(d.showOnlineStatus.value))
            && (d.showLastSeen.Some? ==> up["show_last_seen"] == Flag(d.showLastSeen.value))
            && (d.allowTagging.Some? ==> up["allow_tagging"] == Flag(d.allowTagging.value))
            && up["show_online_status"] == Flag(d.showOnlineStatus != Some(false))
  {
  }
}
