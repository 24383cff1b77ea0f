/** The privacy settings card: six visibility levels and four switches, their
    defaults, the switch and select handlers, and the round trip through the
    JSON text stored in the profile's `privacy_settings` column. */
module PrivacySettings {
  import opened Js
  import AuthContext

  /** The only three privacy levels. */
  datatype Level = Public | Friends | Private

  datatype Settings = Settings(
    whoCanSeeProfile: Level, whoCanSendMessages: Level, whoCanSeeOnlineStatus: Level,
    whoCanSendFriendRequests: Level, whoCanSeeEmail: Level, whoCanSeePhone: Level,
    enableEmailNotifications: bool, enablePushNotifications: bool,
    showLastSeen: bool, showReadReceipts: bool)

  /** `defaultSettings`. */
  const Defaults := Settings(Public, Public, Public, Public, Friends, Friends, true, true, true, true)

  datatype LevelKey = ProfileKey | MessagesKey | OnlineStatusKey | FriendRequestsKey | EmailKey | PhoneKey

  datatype SwitchKey = EmailNotificationsKey | PushNotificationsKey | LastSeenKey | ReadReceiptsKey

  function GetLevel(s: Settings, k: LevelKey): Level {
    match k
    case ProfileKey => s.whoCanSeeProfile
    case MessagesKey => s.whoCanSendMessages
    case OnlineStatusKey => s.whoCanSeeOnlineStatus
    case FriendRequestsKey => s.whoCanSendFriendRequests
    case EmailKey => s.whoCanSeeEmail
    case PhoneKey => s.whoCanSeePhone
  }

  function GetSwitch(s: Settings, k: SwitchKey): bool {
    match k
    case EmailNotificationsKey => s.enableEmailNotifications
    case PushNotificationsKey => s.enablePushNotifications
    case LastSeenKey => s.showLastSeen
    case ReadReceiptsKey => s.showReadReceipts
  }

  /** Email and phone are visible to friends by default, everything else is
      public, and every switch is on. */
  lemma DefaultsAre(k: LevelKey, b: SwitchKey)
    ensures GetLevel(Defaults, k) == if k in {EmailKey, PhoneKey} then Friends else Public
    ensures GetSwitch(Defaults, b)
  {
  }

  /** `handleSwitchChange(key)`. */
  function Switch(s: Settings, k: SwitchKey): (r: Settings)
    ensures forall b :: GetSwitch(r, b) == if b == k then !GetSwitch(s, b) else GetSwitch(s, b)
    ensures forall l :: GetLevel(r, l) == GetLevel(s, l)
  {
    match k
    case EmailNotificationsKey => s.(enableEmailNotifications := !s.enableEmailNotifications)
    case PushNotificationsKey => s.(enablePushNotifications := !s.enablePushNotifications)
    case LastSeenKey => s.(showLastSeen := !s.showLastSeen)
    case ReadReceiptsKey => s.(showReadReceipts := !s.showReadReceipts)
  }

  /** `handleSelectChange(value, key)`. */
  function Select(s: Settings, v: Level, k: LevelKey): (r: Settings)
    ensures forall l :: GetLevel(r, l) == if l == k then v else GetLevel(s, l)
    ensures forall b :: GetSwitch(r, b) == GetSwitch(s, b)
  {
    match k
    case ProfileKey => s.(whoCanSeeProfile := v)
    case MessagesKey => s.(whoCanSendMessages := v)
    case OnlineStatusKey => s.(whoCanSeeOnlineStatus := v)
    case FriendRequestsKey => s.(whoCanSendFriendRequests := v)
    case EmailKey => s.(whoCanSeeEmail := v)
    case PhoneKey => s.(whoCanSeePhone := v)
  }

  /** Switching twice restores the settings. */
  lemma SwitchTwice(s: Settings, k: SwitchKey)
    ensures Switch(Switch(s, k), k) == s
  {
    var once := Switch(s, k);
    match k
    case EmailNotificationsKey => assert once == s.(enableEmailNotifications := !s.enableEmailNotifications);
    case PushNotificationsKey => assert once == s.(enablePushNotifications := !s.enablePushNotifications);
    case LastSeenKey => assert once == s.(showLastSeen := !s.showLastSeen);
    case ReadReceiptsKey => assert once == s.(showReadReceipts := !s.showReadReceipts);
  }

  /** Selecting twice is selecting once. */
  lemma SelectIdempotent(s: Settings, v: Level, l: LevelKey)
    ensures Select(Select(s, v, l), v, l) == Select(s, v, l)
  {
    var once := Select(s, v, l);
    match l
    case ProfileKey => assert once == s.(whoCanSeeProfile := v);
    case MessagesKey => assert once == s.(whoCanSendMessages := v);
    case OnlineStatusKey => assert once == s.(whoCanSeeOnlineStatus := v);
    case FriendRequestsKey => assert once == s.(whoCanSendFriendRequests := v);
    case EmailKey => assert once == s.(whoCanSeeEmail := v);
    case PhoneKey => assert once == s.(whoCanSeePhone := v);
  }

  // ---- JSON text ----

  /** A JSON value of the record: a level string or a boolean. */
  datatype Value = LevelValue(level: Level) | BoolValue(b: bool)

  /** The member names, in the order `JSON.stringify` writes them. */
  const Keys: seq<string> := [
    "whoCanSeeProfile", "whoCanSendMessages", "whoCanSeeOnlineStatus",
    "whoCanSendFriendRequests", "whoCanSeeEmail", "whoCanSeePhone",
    "enableEmailNotifications", "enablePushNotifications", "showLastSeen", "showReadReceipts"]

  function Values(s: Settings): (vs: seq<Value>)
    ensures |vs| == |Keys|
  {
    [LevelValue(s.whoCanSeeProfile), LevelValue(s.whoCanSendMessages), LevelValue(s.whoCanSeeOnlineStatus),
     LevelValue(s.whoCanSendFriendRequests), LevelValue(s.whoCanSeeEmail), LevelValue(s.whoCanSeePhone),
     BoolValue(s.enableEmailNotifications), BoolValue(s.enablePushNotifications),
     BoolValue(s.showLastSeen), BoolValue(s.showReadReceipts)]
  }

  function FromValues(vs: seq<Value>): (r: Option<Settings>)
    requires |vs| == |Keys|
    ensures r.Some? ==> Values(r.value) == vs
  {
    if vs[0].LevelValue? && vs[1].LevelValue? && vs[2].LevelValue? && vs[3].LevelValue?
       && vs[4].LevelValue? && vs[5].LevelValue?
       && vs[6].BoolValue? && vs[7].BoolValue? && vs[8].BoolValue? && vs[9].BoolValue?
    then Some(Settings(vs[0].level, vs[1].level, vs[2].level, vs[3].level, vs[4].level, vs[5].level,
                       vs[6].b, vs[7].b, vs[8].b, vs[9].b))
    else None
  }

  function ValueText(v: Value): string {
    match v
    case LevelValue(Public) => "\"public\""
    case LevelValue(Friends) => "\"friends\""
    case LevelValue(Private) => "\"private\""
    case BoolValue(true) => "true"
    case BoolValue(false) => "false"
  }

  function KeyText(k: string): string {
    "\"" + k + "\":"
  }

  /** `"k1":v1,"k2":v2,...` */
  function Members(keys: seq<string>, vs: seq<Value>): string
    requires |keys| == |vs|
  {
    if |keys| == 0 then ""
    else KeyText(keys[0]) + ValueText(vs[0]) + (if |keys| > 1 then "," + Members(keys[1..], vs[1..]) else "")
  }

  /** `JSON.stringify(settings)`: one object, its members in `Keys` order. */
  function Serialize(s: Settings): (r: string)
    ensures |r| >= 2 && r[0] == '{' && r[|r| - 1] == '}'
  {
    "{" + Members(Keys, Values(s)) + "}"
  }

  /** The rest of `s` after the literal `lit`, if `s` starts with it. */
  function Chomp(s: string, lit: string): (r: Option<string>)
    ensures r.Some? ==> s == lit + r.value
  {
    if IsPrefix(lit, s) then Some(s[|lit|..]) else None
  }

  lemma ChompLiteral(lit: string, rest: string)
    ensures Chomp(lit + rest, lit) == Some(rest)
  {
    assert (lit + rest)[..|lit|] == lit;
  }

  function ParseValue(s: string): (r: Option<(Value, string)>)
    ensures r.Some? ==> s == ValueText(r.value.0) + r.value.1
  {
    if Chomp(s, "\"public\"").Some? then Some((LevelValue(Public), Chomp(s, "\"public\"").value))
    else if Chomp(s, "\"friends\"").Some? then Some((LevelValue(Friends), Chomp(s, "\"friends\"").value))
    else if Chomp(s, "\"private\"").Some? then Some((LevelValue(Private), Chomp(s, "\"private\"").value))
    else if Chomp(s, "true").Some? then Some((BoolValue(true), Chomp(s, "true").value))
    else if Chomp(s, "false").Some? then Some((BoolValue(false), Chomp(s, "false").value))
    else None
  }

  lemma {:induction false} ParseValueText(v: Value, rest: string)
    ensures ParseValue(ValueText(v) + rest) == Some((v, rest))
  {
    var s := ValueText(v) + rest;
    ChompLiteral(ValueText(v), rest);
    match v
    case LevelValue(Public) =>
    case LevelValue(Friends) =>
      assert s[1] == 'f';
      assert Chomp(s, "\"public\"").None?;
    case LevelValue(Private) =>
      assert s[2] == 'r';
      assert Chomp(s, "\"public\"").None?;
      assert Chomp(s, "\"friends\"").None?;
    case BoolValue(true) =>
      assert s[0] == 't';
      assert Chomp(s, "\"public\"").None? && Chomp(s, "\"friends\"").None? && Chomp(s, "\"private\"").None?;
    case BoolValue(false) =>
      assert s[0] == 'f';
      assert Chomp(s, "\"public\"").None? && Chomp(s, "\"friends\"").None? && Chomp(s, "\"private\"").None?;
      assert Chomp(s, "true").None?;
  }

  /** Read the members named `keys`, in order, off the front of `s`. */
  function ParseMembers(s: string, keys: seq<string>): (r: Option<(seq<Value>, string)>)
    ensures r.Some? ==> |r.value.0| == |keys|
    decreases |keys|
  {
    if |keys| == 0 then Some(([], s))
    else match Chomp(s, KeyText(keys[0]))
      case None => None
      case Some(s1) =>
        match ParseValue(s1)
        case None => None
        case Some((v, s2)) =>
          if |keys| == 1 then Some(([v], s2))
          else match Chomp(s2, ",")
            case None => None
            case Some(s3) =>
              match ParseMembers(s3, keys[1..])
              case None => None
              case Some((vs, s4)) => Some(([v] + vs, s4))
  }

  /** Whatever the member reader accepts is the written layout of the values
      it read, followed by the rest. */
  lemma {:induction false} ParseMembersInverse(s: string, keys: seq<string>)
    requires ParseMembers(s, keys).Some?
    ensures |ParseMembers(s, keys).value.0| == |keys|
    ensures s == Members(keys, ParseMembers(s, keys).value.0) + ParseMembers(s, keys).value.1
    decreases |keys|
  {
    if |keys| > 0 {
      var s1 := Chomp(s, KeyText(keys[0])).value;
      var p := ParseValue(s1).value;
      var v, s2 := p.0, p.1;
      assert s == KeyText(keys[0]) + ValueText(v) + s2;
      if |keys| > 1 {
        var s3 := Chomp(s2, ",").value;
        ParseMembersInverse(s3, keys[1..]);
        var q := ParseMembers(s3, keys[1..]).value;
        var vs, s4 := q.0, q.1;
        assert ParseMembers(s, keys).value == ([v] + vs, s4);
        assert ([v] + vs)[1..] == vs;
        assert s == KeyText(keys[0]) + ValueText(v) + ("," + Members(keys[1..], vs)) + s4;
      }
    }
  }

  lemma {:induction false} ParseMembersText(keys: seq<string>, vs: seq<Value>, rest: string)
    requires |keys| == |vs|
    ensures ParseMembers(Members(keys, vs) + rest, keys) == Some((vs, rest))
    decreases |keys|
  {
    var s := Members(keys, vs) + rest;
    if |keys| == 1 {
      assert s == KeyText(keys[0]) + (ValueText(vs[0]) + rest);
      ChompLiteral(KeyText(keys[0]), ValueText(vs[0]) + rest);
      ParseValueText(vs[0], rest);
      assert [vs[0]] == vs;
    } else if |keys| > 1 {
      var more := Members(keys[1..], vs[1..]) + rest;
      var tail := "," + more;
      assert s == KeyText(keys[0]) + (ValueText(vs[0]) + tail);
      ChompLiteral(KeyText(keys[0]), ValueText(vs[0]) + tail);
      ParseValueText(vs[0], tail);
      ChompLiteral(",", more);
      ParseMembersText(keys[1..], vs[1..], rest);
      assert Chomp(s, KeyText(keys[0])) == Some(ValueText(vs[0]) + tail);
      assert ParseValue(ValueText(vs[0]) + tail) == Some((vs[0], tail));
      assert Chomp(tail, ",") == Some(more);
      assert ParseMembers(more, keys[1..]) == Some((vs[1..], rest));
      assert [vs[0]] + vs[1..] == vs;
    } else {
      assert vs == [] && s == rest;
    }
  }

  /** `JSON.parse` of the stored text, for text in the layout `Serialize`
      writes; anything else counts as a parse failure. */
  function Parse(text: string): (r: Option<Settings>)
    ensures r.Some? ==> text == Serialize(r.value)
  {
    match Chomp(text, "{")
    case None => None
    case Some(t1) =>
      match ParseMembers(t1, Keys)
      case None => None
      case Some((vs, t2)) =>
        if t2 == "}" then
          ParseMembersInverse(t1, Keys);
          assert text == "{" + Members(Keys, vs) + "}";
          FromValues(vs)
        else None
  }

  /** The values of a record rebuild it. */
  lemma FromValuesOfValues(s: Settings)
    ensures FromValues(Values(s)) == Some(s)
  {
  }

  /** Text in the written layout parses to the record its values build. */
  lemma {:induction false} ParseLayout(vs: seq<Value>)
    requires |vs| == |Keys|
    ensures Parse("{" + Members(Keys, vs) + "}") == FromValues(vs)
  {
    var body := Members(Keys, vs) + "}";
    assert "{" + Members(Keys, vs) + "}" == "{" + body;
    ChompLiteral("{", body);
    ParseMembersText(Keys, vs, "}");
  }

  /** What is saved loads back unchanged. */
  lemma {:induction false} ParseSerialize(s: Settings)
    ensures Parse(Serialize(s)) == Some(s)
  {
    ParseLayout(Values(s));
    FromValuesOfValues(s);
  }

  // ---- load and save ----

  datatype Card = Card(settings: Settings, loading: bool)

  datatype Change = Change(card: Card, toast: Option<Toast>)

  const LoadFailed := Toast("Failed to load settings", "We couldn't load your privacy settings. Please try again.", true)

  /** `loadPrivacySettings` once the profile query answered. Stored text
      replaces the settings when it parses; a missing profile or an empty or
      missing column keeps them; a query error or unparsable text keeps them
      and raises the failure toast. */
  function Load(c: Card, user: Option<AuthContext.User>, reply: Reply<Option<string>>): (r: Change)
    ensures user.None? ==> r == Change(c, None)
    ensures user.Some? ==> !r.card.loading
    ensures user.Some? && reply.Failed? ==> r.card.settings == c.settings && r.toast == Some(LoadFailed)
    ensures user.Some? && reply.Ok? && (reply.data.None? || OrElse(reply.data.value, "") == "") ==>
              r.card.settings == c.settings && r.toast.None?
    ensures user.Some? && reply.Ok? && reply.data.Some? && OrElse(reply.data.value, "") != "" ==>
              match Parse(reply.data.value.value)
              case Some(s) => r.card.settings == s && r.toast.None?
              case None => r.card.settings == c.settings && r.toast == Some(LoadFailed)
  {
    if user.None? then Change(c, None)
    else match reply
      case Failed(_) => Change(c.(loading := false), Some(LoadFailed))
      case Ok(data) =>
        var stored := if data.Some? then OrElse(data.value, "") else "";
        if stored == "" then Change(c.(loading := false), None)
        else match Parse(stored)
          case Some(s) => Change(Card(s, false), None)
          case None => Change(c.(loading := false), Some(LoadFailed))
  }

  /** `savePrivacySettings`: the update it sends (`privacy_settings` holding
      the whole record as JSON) and the toast for the gateway's answer. */
  datatype Saved = Saved(update: Option<(string, string)>, toast: Option<Toast>)

  function Save(c: Card, user: Option<AuthContext.User>, error: Option<string>): (r: Saved)
    ensures user.None? ==> r == Saved(None, None)
    ensures user.Some? ==> r.update == Some(("privacy_settings", Serialize(c.settings)))
    ensures user.Some? ==> r.toast.Some? && (r.toast.value.destructive <==> error.Some?)
  {
    if user.None? then Saved(None, None)
    else
      var toast := if error.None? then Toast("Settings saved", "Your privacy settings have been updated successfully.", false)
                   else Toast("Failed to save settings", "We couldn't save your privacy settings. Please try again.", true);
      Saved(Some(("privacy_settings", Serialize(c.settings))), Some(toast))
  }

  /** Saving and loading back the stored column restores the settings,
      whatever the card held in between. */
  lemma SaveThenLoad(c: Card, other: Card, user: AuthContext.User)
    ensures var text := Save(c, Some(user), None).update.value.1;
            Load(other, Some(user), Ok(Some(Some(text)))).card.settings == c.settings
  {
    ParseSerialize(c.settings);
  }
}
