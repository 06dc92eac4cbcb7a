/**
 * The notification settings screen. The profile stores its channels and their contact values
 * as two parallel comma-separated strings; the screen edits them as a list of entries.
 */
module Notifications {
  import opened Wrappers
  import opened Text
  import opened Types
  import opened Auth

  /** One notification channel and the contact value for it. */
  datatype Entry = Entry(channel: string, value: string)

  /** The entry field `handleChange` edits. */
  datatype Field = Channel | Value

  /** The profile fields a save sends; an absent field is left out of the JSON body. */
  datatype NotificationPatch = NotificationPatch(
    notificationChannel: Option<string>,
    notificationValue: Option<string>,
    notificationStatus: Option<string>)

  const InvalidSaveMessage := "Please fill all fields and choose a status trigger"
  const SavedMessage := "Notification settings saved successfully!"

  /** The trimmed `i`-th value piece, or `''` where the value list is shorter. */
  function ValueAt(values: seq<string>, i: nat): string {
    if i < |values| then Trim(values[i]) else ""
  }

  /**
   * `getNotifications` on the two stored fields: nothing when either is missing or empty;
   * otherwise one entry per channel piece, pairing trimmed pieces by position.
   */
  function ParseFields(channel: Option<string>, value: Option<string>): (entries: seq<Entry>)
    ensures !Truthy(channel) || !Truthy(value) ==> entries == []
    ensures Truthy(channel) && Truthy(value) ==>
      |entries| == |Split(channel.value, ',')| == Occurrences(channel.value, ',') + 1
    ensures Truthy(channel) && Truthy(value) ==>
      var chs := Split(channel.value, ','); var vals := Split(value.value, ',');
      forall i :: 0 <= i < |entries| ==>
        entries[i] == Entry(Trim(chs[i]), if i < |vals| then Trim(vals[i]) else "")
  {
    if !Truthy(channel) || !Truthy(value) then []
    else
      var chs := Split(channel.value, ',');
      var vals := Split(value.value, ',');
      SplitCount(channel.value, ',');
      seq(|chs|, i requires 0 <= i < |chs| => Entry(Trim(chs[i]), ValueAt(vals, i)))
  }

  /** `getNotifications(user)`. */
  function Parse(u: User): seq<Entry> {
    ParseFields(u.notificationChannel, u.notificationValue)
  }

  /** Some entry's value trims to the empty string (`notifications.some(n => !n.value.trim())`). */
  function HasBlankValue(entries: seq<Entry>): (b: bool)
    ensures b <==> exists k :: 0 <= k < |entries| && Trim(entries[k].value) == ""
  {
    if |entries| == 0 then false
    else Trim(entries[0].value) == "" || HasBlankValue(entries[1..])
  }

  /** The guard of `handleSave`: a non-empty list with a blank value or no status trigger. */
  predicate SaveRejected(entries: seq<Entry>, triggerStatus: string) {
    (triggerStatus == "" || HasBlankValue(entries)) && |entries| > 0
  }

  /** An empty list always passes the guard; a non-empty one passes iff every value is filled and
      a trigger is chosen. */
  lemma SaveGuard(entries: seq<Entry>, triggerStatus: string)
    ensures |entries| == 0 ==> !SaveRejected(entries, triggerStatus)
    ensures |entries| > 0 ==>
      (!SaveRejected(entries, triggerStatus) <==>
        triggerStatus != "" && forall k :: 0 <= k < |entries| ==> Trim(entries[k].value) != "")
  {
  }

  function Channels(entries: seq<Entry>): (cs: seq<string>)
    ensures |cs| == |entries| && forall k :: 0 <= k < |entries| ==> cs[k] == entries[k].channel
  {
    seq(|entries|, k requires 0 <= k < |entries| => entries[k].channel)
  }

  function Values(entries: seq<Entry>): (vs: seq<string>)
    ensures |vs| == |entries| && forall k :: 0 <= k < |entries| ==> vs[k] == entries[k].value
  {
    seq(|entries|, k requires 0 <= k < |entries| => entries[k].value)
  }

  /**
   * The body of the save request: channels and values joined with `,`, each falling back to
   * the stored field when its join is empty, and the status falling back likewise.
   */
  function Serialize(entries: seq<Entry>, triggerStatus: string, stored: Option<User>): (p: NotificationPatch)
    ensures Join(Channels(entries), ',') != "" ==>
      p.notificationChannel == Some(Join(Channels(entries), ','))
    ensures Join(Channels(entries), ',') == "" ==>
      p.notificationChannel == (if stored.Some? then stored.value.notificationChannel else None)
    ensures Join(Values(entries), ',') != "" ==>
      p.notificationValue == Some(Join(Values(entries), ','))
    ensures Join(Values(entries), ',') == "" ==>
      p.notificationValue == (if stored.Some? then stored.value.notificationValue else None)
    ensures triggerStatus != "" ==> p.notificationStatus == Some(triggerStatus)
    ensures triggerStatus == "" ==>
      p.notificationStatus == (if stored.Some? then stored.value.notificationStatus else None)
  {
    var fallback := if stored.Some? then stored.value else User(None, "", "", "", None, None, None, None);
    NotificationPatch(
      OrElse(Some(Join(Channels(entries), ',')), fallback.notificationChannel),
      OrElse(Some(Join(Values(entries), ',')), fallback.notificationValue),
      OrElse(Some(triggerStatus), fallback.notificationStatus))
  }

  /** Clearing every entry and saving sends the stored fields again, so the list cannot be emptied. */
  lemma EmptyListKeepsStored(triggerStatus: string, stored: User)
    ensures var p := Serialize([], triggerStatus, Some(stored));
      p.notificationChannel == stored.notificationChannel &&
      p.notificationValue == stored.notificationValue
  {
    JoinEmpty(Channels([]), ',');
    JoinEmpty(Values([]), ',');
  }

  /** An entry the stored format can carry unchanged: a non-empty channel, and no comma and no
      edge whitespace in either field. */
  predicate Storable(e: Entry) {
    e.channel != "" && ',' !in e.channel && ',' !in e.value && IsTrimmed(e.channel) && IsTrimmed(e.value)
  }

  /** Parsing two fields whose pieces are `cs` and `vs` pairs the trimmed pieces by position. */
  lemma ParseOfSplits(jc: string, jv: string, cs: seq<string>, vs: seq<string>)
    requires jc != "" && jv != ""
    requires Split(jc, ',') == cs && Split(jv, ',') == vs && |cs| == |vs|
    ensures var parsed := ParseFields(Some(jc), Some(jv));
      |parsed| == |cs| && forall i :: 0 <= i < |cs| ==> parsed[i] == Entry(Trim(cs[i]), Trim(vs[i]))
  {
  }

  /** Parsing the joins of two equally long lists of comma-free, non-empty pieces that trimming
      leaves alone pairs the pieces back up. */
  lemma ParseOfJoins(cs: seq<string>, vs: seq<string>)
    requires |cs| == |vs| > 0
    requires forall k :: 0 <= k < |cs| ==> cs[k] != "" && ',' !in cs[k] && Trim(cs[k]) == cs[k]
    requires forall k :: 0 <= k < |vs| ==> vs[k] != "" && ',' !in vs[k] && Trim(vs[k]) == vs[k]
    ensures var parsed := ParseFields(Some(Join(cs, ',')), Some(Join(vs, ',')));
      |parsed| == |cs| && forall i :: 0 <= i < |cs| ==> parsed[i] == Entry(cs[i], vs[i])
  {
    JoinEmpty(cs, ',');
    JoinEmpty(vs, ',');
    SplitJoin(cs, ',');
    SplitJoin(vs, ',');
    ParseOfSplits(Join(cs, ','), Join(vs, ','), cs, vs);
  }

  /** Parsing the joins of storable entries with non-empty values gives back the entries. */
  lemma ParseJoins(entries: seq<Entry>)
    requires |entries| > 0
    requires forall k :: 0 <= k < |entries| ==> Storable(entries[k]) && entries[k].value != ""
    ensures ParseFields(Some(Join(Channels(entries), ',')), Some(Join(Values(entries), ','))) == entries
  {
    var cs, vs := Channels(entries), Values(entries);
    forall k | 0 <= k < |entries|
      ensures Trim(cs[k]) == cs[k] && Trim(vs[k]) == vs[k]
    {
      TrimOfTrimmed(cs[k]);
      TrimOfTrimmed(vs[k]);
    }
    ParseOfJoins(cs, vs);
  }

  /**
   * Round trip: a list that passes the guard and whose entries are storable is sent as its own
   * joins, and parsing what was sent gives back the same list.
   */
  lemma SaveRoundTrip(entries: seq<Entry>, triggerStatus: string, stored: Option<User>)
    requires |entries| > 0 && !SaveRejected(entries, triggerStatus)
    requires forall k :: 0 <= k < |entries| ==> Storable(entries[k])
    ensures var p := Serialize(entries, triggerStatus, stored);
      p.notificationChannel == Some(Join(Channels(entries), ',')) &&
      p.notificationValue == Some(Join(Values(entries), ',')) &&
      ParseFields(p.notificationChannel, p.notificationValue) == entries
  {
    forall k | 0 <= k < |entries|
      ensures entries[k].value != ""
    {
      TrimOfTrimmed(entries[k].value);
      assert Trim(entries[k].value) != "";
    }
    JoinEmpty(Channels(entries), ',');
    JoinEmpty(Values(entries), ',');
    ParseJoins(entries);
  }

  /** `splice(index, 1)`'s start position: negative indices count from the end, and both ends clamp. */
  function SpliceStart(len: nat, index: int): (k: nat)
    ensures k <= len
    ensures 0 <= index <= len ==> k == index
    ensures index > len ==> k == len
    ensures index < 0 ==> k == if len + index < 0 then 0 else len + index
  {
    if index < 0 then (if len + index < 0 then 0 else len + index)
    else if index > len then len
    else index
  }

  /**
   * The list after `updated.splice(index, 1)`: the entry at the start position is gone and the
   * rest keep their order; a start past the end removes nothing.
   */
  function Removed(entries: seq<Entry>, index: int): (r: seq<Entry>)
    ensures var k := SpliceStart(|entries|, index);
      k < |entries| ==>
        (|r| == |entries| - 1 &&
         forall j :: 0 <= j < |r| ==> r[j] == (if j < k then entries[j] else entries[j + 1]))
    ensures SpliceStart(|entries|, index) == |entries| ==> r == entries
  {
    var k := SpliceStart(|entries|, index);
    if k < |entries| then entries[..k] + entries[k + 1..] else entries
  }

  /** Removing a position in range removes exactly that entry. */
  lemma RemoveInRange(entries: seq<Entry>, index: nat)
    requires index < |entries|
    ensures Removed(entries, index) == entries[..index] + entries[index + 1..]
  {
  }

  /** The list after `updated[index][field] = value`: one field of one entry changes. */
  function Changed(entries: seq<Entry>, index: nat, field: Field, value: string): (r: seq<Entry>)
    requires index < |entries|
    ensures |r| == |entries|
    ensures forall j :: 0 <= j < |r| && j != index ==> r[j] == entries[j]
    ensures field == Channel ==> r[index] == Entry(value, entries[index].value)
    ensures field == Value ==> r[index] == Entry(entries[index].channel, value)
  {
    var e := entries[index];
    entries[index := if field == Channel then e.(channel := value) else e.(value := value)]
  }

  class NotificationSettings {
    const auth: AuthProvider
    const names: EnumValues
    var notifications: seq<Entry>
    var triggerStatus: string
    var isSaving: bool
    var saveSuccess: bool
    var error: string
    /** A pending `setTimeout` that will clear `saveSuccess`. */
    var resetScheduled: bool

    constructor (auth: AuthProvider, names: EnumValues)
      ensures this.auth == auth && this.names == names
      ensures notifications == [] && triggerStatus == names.statusAll
      ensures !isSaving && !saveSuccess && error == "" && !resetScheduled
    {
      this.auth := auth;
      this.names := names;
      notifications := [];
      triggerStatus := names.statusAll;
      isSaving := false;
      saveSuccess := false;
      error := "";
      resetScheduled := false;
    }

    /** The effect run whenever the context's user changes: load the entries and, when the
        profile has one, the status trigger. */
    method OnUserChanged()
      modifies this`notifications, this`triggerStatus
      ensures auth.user.None? ==> notifications == old(notifications) && triggerStatus == old(triggerStatus)
      ensures auth.user.Some? ==> notifications == Parse(auth.user.value)
      ensures auth.user.Some? && Truthy(auth.user.value.notificationStatus) ==>
        triggerStatus == auth.user.value.notificationStatus.value
      ensures auth.user.Some? && !Truthy(auth.user.value.notificationStatus) ==>
        triggerStatus == old(triggerStatus)
    {
      if auth.user.Some? {
        var u := auth.user.value;
        notifications := Parse(u);
        if Truthy(u.notificationStatus) {
          triggerStatus := u.notificationStatus.value;
        }
      }
    }

    /** Appends one WhatsApp entry with an empty value. */
    method HandleAdd()
      modifies this`notifications
      ensures notifications == old(notifications) + [Entry(names.whatsapp, "")]
    {
      notifications := notifications + [Entry(names.whatsapp, "")];
    }

    method HandleRemove(index: int)
      modifies this`notifications
      ensures notifications == Removed(old(notifications), index)
    {
      notifications := Removed(notifications, index);
    }

    /** The index comes from the rendered list, so it is always in range. */
    method HandleChange(index: nat, field: Field, value: string)
      requires index < |notifications|
      modifies this`notifications
      ensures notifications == Changed(old(notifications), index, field, value)
    {
      notifications := Changed(notifications, index, field, value);
    }

    method HandleStatusChange(status: string)
      modifies this`triggerStatus
      ensures triggerStatus == status
    {
      triggerStatus := status;
    }

    /**
     * `handleSave`. A rejected list sends nothing and only raises the error. Otherwise the joined
     * fields are sent and `response` is how the PATCH ends: on success the list is reloaded from
     * the returned profile, which replaces the context's user; on failure its message is shown.
     */
    method HandleSave(response: AxiosResult<User>) returns (request: Option<NotificationPatch>, notices: seq<Notice>)
      modifies this, auth`user
      ensures old(SaveRejected(notifications, triggerStatus)) ==>
        request == None && notices == [ErrorToast(InvalidSaveMessage)] &&
        error == InvalidSaveMessage && auth.user == old(auth.user) &&
        notifications == old(notifications) && isSaving == old(isSaving) &&
        saveSuccess == old(saveSuccess) && resetScheduled == old(resetScheduled)
      ensures !old(SaveRejected(notifications, triggerStatus)) ==>
        request == Some(Serialize(old(notifications), old(triggerStatus), old(auth.user))) && !isSaving
      ensures !old(SaveRejected(notifications, triggerStatus)) && response.Resolved? ==>
        notifications == Parse(response.data) && auth.user == Some(response.data) &&
        saveSuccess && resetScheduled && error == "" && notices == [SuccessToast(SavedMessage)]
      ensures !old(SaveRejected(notifications, triggerStatus)) && response.Rejected? ==>
        var msg := RejectionText(response.serverMessage, response.message);
        notifications == old(notifications) && auth.user == old(auth.user) &&
        !saveSuccess && error == msg && notices == [ErrorToast(msg)] &&
        resetScheduled == old(resetScheduled)
      ensures triggerStatus == old(triggerStatus)
    {
      if SaveRejected(notifications, triggerStatus) {
        error := InvalidSaveMessage;
        notices := [ErrorToast(InvalidSaveMessage)];
        request := None;
        return;
      }
      isSaving := true;
      saveSuccess := false;
      error := "";
      request := Some(Serialize(notifications, triggerStatus, auth.user));
      notices := SettleSave(response);
      isSaving := false;
    }

    /** How a sent PATCH ends: the returned profile reloads the list and replaces the context's
        user, or the failure's message is shown. */
    method SettleSave(response: AxiosResult<User>) returns (notices: seq<Notice>)
      requires error == "" && !saveSuccess
      modifies this`notifications, this`saveSuccess, this`resetScheduled, this`error, auth`user
      ensures response.Resolved? ==>
        notifications == Parse(response.data) && auth.user == Some(response.data) &&
        saveSuccess && resetScheduled && error == "" && notices == [SuccessToast(SavedMessage)]
      ensures response.Rejected? ==>
        var msg := RejectionText(response.serverMessage, response.message);
        notifications == old(notifications) && auth.user == old(auth.user) &&
        !saveSuccess && error == msg && notices == [ErrorToast(msg)] &&
        resetScheduled == old(resetScheduled)
    {
      match response {
        case Resolved(data) =>
          notifications := Parse(data);
          auth.SetUser(Some(data));
          notices := [SuccessToast(SavedMessage)];
          saveSuccess := true;
          resetScheduled := true;
        case Rejected(serverMessage, message) =>
          var msg := RejectionText(serverMessage, message);
          error := msg;
          notices := [ErrorToast(msg)];
      }
    }

    /** The timer set after a successful save firing. */
    method OnResetTimer()
      modifies this`saveSuccess, this`resetScheduled
      ensures !saveSuccess && !resetScheduled
    {
      saveSuccess := false;
      resetScheduled := false;
    }
  }
}
