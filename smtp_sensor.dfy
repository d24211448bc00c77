/** A model of the diagnostic sensors of the SMTP integration: one status, one last-error
    and one last-sent sensor per config entry. Each sensor is a small register whose value
    an outside caller overwrites and then publishes to the host's state sink. */
module SmtpSensor {

  datatype Option<T> = None | Some(value: T)

  // ---------------------------------------------------------------------------
  // Constants of the integration and of its host
  // ---------------------------------------------------------------------------

  /** The integration's domain (the `DOMAIN` of its const module). */
  const Domain: string := "smtp"
  /** The config-entry data key that holds the sender address (the host's CONF_SENDER). */
  const ConfSender: string := "sender"
  /** The sender shown when the entry names none. */
  const DefaultSender: string := "Email"
  const DeviceManufacturer: string := "SMTP"
  const DeviceModel: string := "Email Service"

  const Connected: string := "Connected"
  const Error: string := "Error"
  const Sending: string := "Sending"
  /** What the last-error sensor shows when there is no error to show. */
  const NoError: string := "None"
  /** What the last-sent sensor shows before anything was sent. */
  const NeverSent: string := "Never"

  const IconCheck: string := "mdi:email-check"
  const IconRemove: string := "mdi:email-remove"
  const IconSync: string := "mdi:email-sync"
  const IconGeneric: string := "mdi:email"
  const IconAlert: string := "mdi:email-alert"
  const IconFast: string := "mdi:email-fast"

  /** The host's entity category; every sensor here is a diagnostic one. */
  datatype EntityCategory = Config | Diagnostic

  /** A config entry of the host: its id and its stored data. */
  datatype ConfigEntry = ConfigEntry(entryId: string, data: map<string, string>)

  /** The device record the three sensors of one entry are grouped under. */
  datatype DeviceInfo = DeviceInfo(
    identifiers: set<(string, string)>,
    name: string,
    manufacturer: string,
    model: string)

  /** What one call of the publish hook hands to the host: the value and the icon. */
  datatype SensorState = SensorState(value: string, icon: string)

  datatype SensorKind = StatusKind | LastErrorKind | LastSentKind

  // ---------------------------------------------------------------------------
  // Identity: unique ids and the shared device record
  // ---------------------------------------------------------------------------

  function Suffix(kind: SensorKind): (s: string)
    ensures |s| > 0
  {
    match kind
    case StatusKind => "_status"
    case LastErrorKind => "_last_error"
    case LastSentKind => "_last_sent"
  }

  /** The unique id of the sensor of the given kind under the given entry. */
  function UniqueId(entryId: string, kind: SensorKind): (id: string)
    ensures |id| > |entryId| && id[..|entryId|] == entryId
  {
    entryId + Suffix(kind)
  }

  /** The last character of a suffix tells the kind: 's', 'r' or 't'. */
  lemma SuffixLastCharDistinct(k1: SensorKind, k2: SensorKind)
    requires k1 != k2
    ensures Suffix(k1)[|Suffix(k1)| - 1] != Suffix(k2)[|Suffix(k2)| - 1]
  {
  }

  /** Unique ids never collide: not between the three sensors of one entry, and not
      between sensors of two different entries. */
  lemma UniqueIdInjective(e1: string, k1: SensorKind, e2: string, k2: SensorKind)
    requires UniqueId(e1, k1) == UniqueId(e2, k2)
    ensures e1 == e2 && k1 == k2
  {
    var id := UniqueId(e1, k1);
    assert id[|id| - 1] == Suffix(k1)[|Suffix(k1)| - 1];
    assert id[|id| - 1] == Suffix(k2)[|Suffix(k2)| - 1];
    if k1 != k2 {
      SuffixLastCharDistinct(k1, k2);
      assert false;
    }
    assert e1 == id[..|id| - |Suffix(k1)|];
  }

  /** The three unique ids of one entry are pairwise distinct. */
  lemma UniqueIdsDistinct(entryId: string)
    ensures UniqueId(entryId, StatusKind) != UniqueId(entryId, LastErrorKind)
    ensures UniqueId(entryId, StatusKind) != UniqueId(entryId, LastSentKind)
    ensures UniqueId(entryId, LastErrorKind) != UniqueId(entryId, LastSentKind)
  {
  }

  /** The sender of an entry: its stored sender, or "Email" when it stores none. */
  function Sender(entry: ConfigEntry): (sender: string)
    ensures ConfSender in entry.data ==> sender == entry.data[ConfSender]
    ensures ConfSender !in entry.data ==> sender == DefaultSender
  {
    if ConfSender in entry.data then entry.data[ConfSender] else DefaultSender
  }

  /** The sender is "Email" exactly when the entry stores no sender or stores "Email". */
  lemma SenderIsDefault(entry: ConfigEntry)
    ensures Sender(entry) == DefaultSender <==>
            (ConfSender !in entry.data || entry.data[ConfSender] == DefaultSender)
  {
  }

  /** Entries with the same id that agree on the sender key (both lack it, or both hold the
      same sender) get the same sender and the same device record. */
  lemma SameSenderKeySameDevice(a: ConfigEntry, b: ConfigEntry)
    requires a.entryId == b.entryId
    requires (ConfSender in a.data) == (ConfSender in b.data)
    requires ConfSender in a.data ==> a.data[ConfSender] == b.data[ConfSender]
    ensures Sender(a) == Sender(b) && DeviceInfoFor(a) == DeviceInfoFor(b)
  {
  }

  /** The device name "SMTP (<sender>)": it starts with "SMTP (", ends with ")" and holds
      the sender in between. */
  function DeviceName(sender: string): (name: string)
    ensures |name| == |sender| + 7
    ensures name[..6] == "SMTP (" && name[|name| - 1] == ')'
    ensures name[6..|name| - 1] == sender
  {
    "SMTP (" + sender + ")"
  }

  /** Reads the sender back out of a device name; None for a name of another shape. */
  function SenderOfDeviceName(name: string): (sender: Option<string>)
    ensures sender.Some? ==> DeviceName(sender.value) == name
  {
    if |name| >= 7 && name[..6] == "SMTP (" && name[|name| - 1] == ')' then
      assert name == name[..6] + name[6..|name| - 1] + [name[|name| - 1]];
      Some(name[6..|name| - 1])
    else None
  }

  /** The device name gives back the sender it was made from. */
  lemma DeviceNameRoundTrip(sender: string)
    ensures SenderOfDeviceName(DeviceName(sender)) == Some(sender)
  {
  }

  /** Two entries get the same device record exactly when they have the same id and the
      same sender. */
  lemma DeviceInfoDeterminesEntry(a: ConfigEntry, b: ConfigEntry)
    ensures DeviceInfoFor(a) == DeviceInfoFor(b) <==>
            (a.entryId == b.entryId && Sender(a) == Sender(b))
  {
  }

  /** The device record every sensor of the entry carries. */
  function DeviceInfoFor(entry: ConfigEntry): (info: DeviceInfo)
    ensures info.identifiers == {(Domain, entry.entryId)}
    ensures SenderOfDeviceName(info.name) == Some(Sender(entry))
    ensures info.manufacturer == DeviceManufacturer && info.model == DeviceModel
  {
    DeviceNameRoundTrip(Sender(entry));
    DeviceInfo({(Domain, entry.entryId)}, DeviceName(Sender(entry)),
               DeviceManufacturer, DeviceModel)
  }

  // ---------------------------------------------------------------------------
  // The value rules
  // ---------------------------------------------------------------------------

  /** The icon table of the status sensor; every other status gets the generic icon. */
  const StatusIcons: map<string, string> :=
    map[Connected := IconCheck, Error := IconRemove, Sending := IconSync]

  /** The icon of a status, by exact match against the three known ones. */
  function IconFor(status: string): (icon: string)
    ensures icon == if status in StatusIcons then StatusIcons[status] else IconGeneric
  {
    if status == Connected then IconCheck
    else if status == Error then IconRemove
    else if status == Sending then IconSync
    else IconGeneric
  }

  /** The status a known icon stands for; None for the generic icon and any other. */
  function StatusOfIcon(icon: string): (status: Option<string>)
    ensures status.Some? ==> status.value in StatusIcons && StatusIcons[status.value] == icon
  {
    if icon == IconCheck then Some(Connected)
    else if icon == IconRemove then Some(Error)
    else if icon == IconSync then Some(Sending)
    else None
  }

  /** A status gets a specific icon exactly when it is one of the three known ones, and
      then the icon tells which one it is. */
  lemma IconForKnownStatus(status: string)
    ensures IconFor(status) != IconGeneric <==> status in StatusIcons
    ensures status in StatusIcons ==> StatusOfIcon(IconFor(status)) == Some(status)
    ensures status !in StatusIcons ==> StatusOfIcon(IconFor(status)) == None
  {
  }

  /** The value the last-error sensor stores: the error when it is present and not empty,
      and "None" otherwise. */
  function NormalizeError(error: Option<string>): (stored: string)
    ensures stored != ""
    ensures error.Some? && error.value != "" ==> stored == error.value
    ensures error.None? || error.value == "" ==> stored == NoError
  {
    if error.Some? && error.value != "" then error.value else NoError
  }

  /** A stored "None" cannot tell an absent error, an empty one and the text "None" apart,
      and nothing else is stored as "None". */
  lemma NormalizeErrorIsNone(error: Option<string>)
    ensures NormalizeError(error) == NoError <==>
            (error == None || error == Some("") || error == Some(NoError))
  {
  }

  /** Normalising a stored value again changes nothing. */
  lemma NormalizeErrorIdempotent(error: Option<string>)
    ensures NormalizeError(Some(NormalizeError(error))) == NormalizeError(error)
  {
  }

  predicate IsDigit(c: char) { '0' <= c <= '9' }

  /** The shape "YYYY-MM-DD HH:MM:SS" of a local time formatted with a four-digit year. */
  predicate IsTimestamp(t: string) {
    |t| == 19 &&
    t[4] == '-' && t[7] == '-' && t[10] == ' ' && t[13] == ':' && t[16] == ':' &&
    forall i :: 0 <= i < 19 && i !in {4, 7, 10, 13, 16} ==> IsDigit(t[i])
  }

  /** A formatted time stamp is never the "Never" the sensor starts with, nor empty. */
  lemma TimestampIsNotNever(t: string)
    requires IsTimestamp(t)
    ensures t != NeverSent && t != ""
  {
  }

  // ---------------------------------------------------------------------------
  // The three sensors
  // ---------------------------------------------------------------------------

  /** The connection status sensor. Its icon always agrees with its value, and the last
      state it published (if any) is its current state. */
  class StatusSensor {
    const entry: ConfigEntry
    const name: string
    const uniqueId: string
    const deviceInfo: DeviceInfo
    const hasEntityName: bool
    const entityCategory: EntityCategory
    var nativeValue: string
    var icon: string
    /** The states handed to the host's publish hook, oldest first. */
    ghost var published: seq<SensorState>

    ghost function State(): SensorState
      reads this
    {
      SensorState(nativeValue, icon)
    }

    ghost predicate Valid()
      reads this
    {
      icon == IconFor(nativeValue) &&
      (published != [] ==> published[|published| - 1] == State())
    }

    constructor (entry: ConfigEntry)
      ensures Valid()
      ensures this.entry == entry && name == "Status"
      ensures uniqueId == UniqueId(entry.entryId, StatusKind)
      ensures deviceInfo == DeviceInfoFor(entry)
      ensures hasEntityName && entityCategory == Diagnostic
      ensures nativeValue == Connected && icon == IconCheck
      ensures published == []
    {
      this.entry := entry;
      name := "Status";
      deviceInfo := DeviceInfoFor(entry);
      hasEntityName := true;
      entityCategory := Diagnostic;
      uniqueId := UniqueId(entry.entryId, StatusKind);
      nativeValue := Connected;
      icon := IconCheck;
      published := [];
    }

    /** Stores any status verbatim, sets the matching icon and publishes once. */
    method UpdateStatus(status: string)
      requires Valid()
      modifies this
      ensures Valid()
      ensures nativeValue == status && icon == IconFor(status)
      ensures published == old(published) + [SensorState(status, IconFor(status))]
    {
      nativeValue := status;
      if status == Connected {
        icon := IconCheck;
      } else if status == Error {
        icon := IconRemove;
      } else if status == Sending {
        icon := IconSync;
      } else {
        icon := IconGeneric;
      }
      Publish();
    }

    /** The host's state-write hook: it hands the current state over. */
    method Publish()
      modifies this`published
      ensures published == old(published) + [State()]
    {
      published := published + [State()];
    }
  }

  /** The last-error sensor. Its icon never changes; the last state it published (if
      any) is its current state. */
  class LastErrorSensor {
    const entry: ConfigEntry
    const name: string
    const icon: string
    const uniqueId: string
    const deviceInfo: DeviceInfo
    const hasEntityName: bool
    const entityCategory: EntityCategory
    var nativeValue: string
    ghost var published: seq<SensorState>

    ghost function State(): SensorState
      reads this
    {
      SensorState(nativeValue, icon)
    }

    ghost predicate Valid()
      reads this
    {
      icon == IconAlert && nativeValue != "" &&
      (published != [] ==> published[|published| - 1] == State())
    }

    constructor (entry: ConfigEntry)
      ensures Valid()
      ensures this.entry == entry && name == "Last error"
      ensures uniqueId == UniqueId(entry.entryId, LastErrorKind)
      ensures deviceInfo == DeviceInfoFor(entry)
      ensures hasEntityName && entityCategory == Diagnostic
      ensures nativeValue == NoError && icon == IconAlert
      ensures published == []
    {
      this.entry := entry;
      name := "Last error";
      icon := IconAlert;
      deviceInfo := DeviceInfoFor(entry);
      hasEntityName := true;
      entityCategory := Diagnostic;
      uniqueId := UniqueId(entry.entryId, LastErrorKind);
      nativeValue := NoError;
      published := [];
    }

    /** Stores the error, or "None" when it is absent or empty, and publishes once. */
    method UpdateError(error: Option<string>)
      requires Valid()
      modifies this
      ensures Valid()
      ensures nativeValue == NormalizeError(error)
      ensures published == old(published) + [SensorState(NormalizeError(error), IconAlert)]
    {
      nativeValue := if error.Some? && error.value != "" then error.value else NoError;
      Publish();
    }

    method Publish()
      modifies this`published
      ensures published == old(published) + [State()]
    {
      published := published + [State()];
    }
  }

  /** The last-sent sensor. Its icon never changes; the last state it published (if any)
      is its current state. */
  class LastSentSensor {
    const entry: ConfigEntry
    const name: string
    const icon: string
    const uniqueId: string
    const deviceInfo: DeviceInfo
    const hasEntityName: bool
    const entityCategory: EntityCategory
    var nativeValue: string
    ghost var published: seq<SensorState>

    ghost function State(): SensorState
      reads this
    {
      SensorState(nativeValue, icon)
    }

    ghost predicate Valid()
      reads this
    {
      icon == IconFast &&
      (nativeValue == NeverSent || IsTimestamp(nativeValue)) &&
      (published != [] ==> published[|published| - 1] == State())
    }

    constructor (entry: ConfigEntry)
      ensures Valid()
      ensures this.entry == entry && name == "Last sent"
      ensures uniqueId == UniqueId(entry.entryId, LastSentKind)
      ensures deviceInfo == DeviceInfoFor(entry)
      ensures hasEntityName && entityCategory == Diagnostic
      ensures nativeValue == NeverSent && icon == IconFast
      ensures published == []
    {
      this.entry := entry;
      name := "Last sent";
      icon := IconFast;
      deviceInfo := DeviceInfoFor(entry);
      hasEntityName := true;
      entityCategory := Diagnostic;
      uniqueId := UniqueId(entry.entryId, LastSentKind);
      nativeValue := NeverSent;
      published := [];
    }

    /** Stores the formatted time of the send and publishes once. The clock reading and
        its formatting are the caller's: `stamp` is the already formatted local time. */
    method UpdateSent(stamp: string)
      requires Valid()
      requires IsTimestamp(stamp)
      modifies this
      ensures Valid()
      ensures nativeValue == stamp && nativeValue != NeverSent
      ensures published == old(published) + [SensorState(stamp, IconFast)]
    {
      nativeValue := stamp;
      TimestampIsNotNever(stamp);
      Publish();
    }

    method Publish()
      modifies this`published
      ensures published == old(published) + [State()]
    {
      published := published + [State()];
    }
  }

  /** Builds the three sensors of one entry, as the platform setup does before it hands
      them to the host. */
  method CreateSensors(entry: ConfigEntry)
    returns (status: StatusSensor, lastError: LastErrorSensor, lastSent: LastSentSensor)
    ensures fresh(status) && fresh(lastError) && fresh(lastSent)
    ensures status.Valid() && lastError.Valid() && lastSent.Valid()
    ensures status.nativeValue == Connected && status.icon == IconCheck
    ensures lastError.nativeValue == NoError && lastSent.nativeValue == NeverSent
    ensures status.entry == lastError.entry == lastSent.entry == entry
    ensures status.deviceInfo == lastError.deviceInfo == lastSent.deviceInfo == DeviceInfoFor(entry)
    ensures status.uniqueId == UniqueId(entry.entryId, StatusKind)
    ensures lastError.uniqueId == UniqueId(entry.entryId, LastErrorKind)
    ensures lastSent.uniqueId == UniqueId(entry.entryId, LastSentKind)
    ensures status.uniqueId != lastError.uniqueId && status.uniqueId != lastSent.uniqueId
    ensures lastError.uniqueId != lastSent.uniqueId
    ensures status.published == lastError.published == lastSent.published == []
  {
    status := new StatusSensor(entry);
    lastError := new LastErrorSensor(entry);
    lastSent := new LastSentSensor(entry);
    UniqueIdsDistinct(entry.entryId);
  }

  /** A caller's view: each update changes only its own sensor and publishes once, also
      when the value does not change. */
  method UpdatesAreIndependent(entry: ConfigEntry, stamp: string)
    requires IsTimestamp(stamp)
  {
    var status, lastError, lastSent := CreateSensors(entry);
    status.UpdateStatus("Sending");
    assert status.icon == IconSync;
    assert lastError.nativeValue == NoError && lastSent.nativeValue == NeverSent;
    assert |lastError.published| == 0 && |lastSent.published| == 0;

    lastError.UpdateError(Some("SMTP timeout"));
    assert lastError.nativeValue == "SMTP timeout";
    assert status.nativeValue == Sending && lastSent.nativeValue == NeverSent;

    lastError.UpdateError(None);
    assert lastError.nativeValue == NoError;
    lastError.UpdateError(None);
    assert lastError.nativeValue == NoError && |lastError.published| == 3;

    lastSent.UpdateSent(stamp);
    assert lastSent.nativeValue != NeverSent;
    assert status.nativeValue == Sending && lastError.nativeValue == NoError;
    assert |status.published| == 1 && |lastSent.published| == 1;
  }
}
