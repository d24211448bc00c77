# SMTP diagnostic sensors, modelled in Dafny

The SMTP integration for Home Assistant creates three diagnostic sensors for each config
entry:

- a **status** sensor, "Connected" at first;
- a **last error** sensor, "None" at first;
- a **last sent** sensor, "Never" at first.

All three carry one shared device record, "SMTP (<sender>)", made by SMTP, model "Email
Service". Each has a unique id made of the entry id and a suffix. The mail-sending code of
the integration pushes new values in through `update_status`, `update_error` and
`update_sent`. Each of these overwrites the sensor's value, and for the status sensor its
icon too, and then calls the host's state-write hook exactly once.

`smtp_sensor.dfy` (module `SmtpSensor`) models this. There is one class per sensor:

- the identity fields are `const`;
- the value, and the status icon, are `var`s its update method overwrites;
- a ghost log `published` stands for the state-write hook, and each `Publish` call appends
  the state handed over.

Each class keeps an invariant `Valid()`:

- the last published state is the current state;
- for the status sensor, the icon always agrees with the value;
- for the last-error sensor, the stored value is never empty;
- for the last-sent sensor, the value is "Never" or a "YYYY-MM-DD HH:MM:SS" stamp.

Each update method states the sensor's entire new state. Its `modifies this` frame shows
that the other two sensors stay unchanged. Its log equation shows that the hook is called
exactly once, with no de-duplication. `UpdatesAreIndependent` is a client method that
shows this on a concrete sequence of calls.

The pure rules sit beside the classes, each with a partner:

- the icon chain and the table `StatusIcons`, plus the inverse `StatusOfIcon`;
- error normalisation, and exactly which inputs read as "None";
- unique ids, proved injective across kinds and across entries;
- the device name, read back by `SenderOfDeviceName`.

Constants: `DOMAIN` is taken as "smtp" (the integration's directory name). The const module
that defines it is not part of this model. `CONF_SENDER` is the host's key "sender". Entry
data is modelled as a map from strings to strings.

## Model

| member | source | states |
|---|---|---|
| SmtpSensor.UniqueId | custom_components/smtp/sensor.py:70 | a unique id begins with the entry id and is longer than it |
| SmtpSensor.UniqueIdInjective | custom_components/smtp/sensor.py:70-116 | equal unique ids mean the same entry id and the same sensor kind, so ids never collide within or across entries |
| SmtpSensor.UniqueIdsDistinct | custom_components/smtp/sensor.py:70-116 | the `_status`, `_last_error` and `_last_sent` ids of one entry are pairwise distinct |
| SmtpSensor.SuffixLastCharDistinct | custom_components/smtp/sensor.py:70-116 | the three id suffixes end in different characters |
| SmtpSensor.SenderIsDefault | custom_components/smtp/sensor.py:52 | the sender reads "Email" exactly when the entry stores no sender or stores "Email" itself |
| SmtpSensor.SameSenderKeySameDevice | custom_components/smtp/sensor.py:52-58 | entries with one id that agree on the sender key get the same sender and the same device record; other data keys do not matter |
| SmtpSensor.DeviceName | custom_components/smtp/sensor.py:55 | the device name is "SMTP (" then the sender then ")" |
| SmtpSensor.SenderOfDeviceName | custom_components/smtp/sensor.py:55 | whatever sender it reads back rebuilds the same device name |
| SmtpSensor.DeviceNameRoundTrip | custom_components/smtp/sensor.py:55 | reading the sender back from a device name gives the sender it was made from |
| SmtpSensor.DeviceInfoFor | custom_components/smtp/sensor.py:52-58 | the device record has the single identifier (DOMAIN, entry id), a name that encodes the entry's sender, manufacturer "SMTP" and model "Email Service" |
| SmtpSensor.DeviceInfoDeterminesEntry | custom_components/smtp/sensor.py:52-58 | two entries share a device record exactly when they have the same id and the same sender |
| SmtpSensor.IconFor | custom_components/smtp/sensor.py:77-84 | the status icon is the one from the table Connected/Error/Sending → check/remove/sync, and "mdi:email" for every other status; total, exact match |
| SmtpSensor.StatusOfIcon | custom_components/smtp/sensor.py:77-82 | any status read back from an icon is a known status whose table icon is that icon |
| SmtpSensor.IconForKnownStatus | custom_components/smtp/sensor.py:77-84 | a status gets a non-generic icon exactly when it is a known one, and its icon then gives that status back |
| SmtpSensor.NormalizeError | custom_components/smtp/sensor.py:103 | the stored error is never empty: it is the error when present and non-empty, and "None" when absent or empty |
| SmtpSensor.NormalizeErrorIsNone | custom_components/smtp/sensor.py:103 | exactly an absent error, an empty one and the text "None" are stored as "None" |
| SmtpSensor.NormalizeErrorIdempotent | custom_components/smtp/sensor.py:103 | normalising a stored error again leaves it as it is |
| SmtpSensor.TimestampIsNotNever | custom_components/smtp/sensor.py:122 | a "YYYY-MM-DD HH:MM:SS" stamp is neither "Never" nor empty |
| SmtpSensor.StatusSensor.constructor | custom_components/smtp/sensor.py:61-71 | a new status sensor holds "Connected" with icon "mdi:email-check", id entry id + "_status", the entry's device record, and has published nothing |
| SmtpSensor.StatusSensor.UpdateStatus | custom_components/smtp/sensor.py:74-85 | any status is stored verbatim, the icon becomes IconFor of it, and exactly one snapshot of that new state is published |
| SmtpSensor.StatusSensor.Publish | custom_components/smtp/sensor.py:85 | the state-write hook appends the current state to the published log |
| SmtpSensor.LastErrorSensor.constructor | custom_components/smtp/sensor.py:88-98 | a new last-error sensor holds "None" with icon "mdi:email-alert", id entry id + "_last_error", the entry's device record, and has published nothing |
| SmtpSensor.LastErrorSensor.UpdateError | custom_components/smtp/sensor.py:101-104 | the stored value becomes the normalised error, the icon stays "mdi:email-alert", and exactly one snapshot is published |
| SmtpSensor.LastErrorSensor.Publish | custom_components/smtp/sensor.py:104 | the state-write hook appends the current state to the published log |
| SmtpSensor.LastSentSensor.constructor | custom_components/smtp/sensor.py:107-117 | a new last-sent sensor holds "Never" with icon "mdi:email-fast", id entry id + "_last_sent", the entry's device record, and has published nothing |
| SmtpSensor.LastSentSensor.UpdateSent | custom_components/smtp/sensor.py:120-123 | given a "YYYY-MM-DD HH:MM:SS" stamp, the stored value becomes that stamp, which is no longer "Never", and exactly one snapshot is published |
| SmtpSensor.LastSentSensor.Publish | custom_components/smtp/sensor.py:123 | the state-write hook appends the current state to the published log |
| SmtpSensor.CreateSensors | custom_components/smtp/sensor.py:22-26 | the three fresh sensors all belong to the given entry, start in their default states, share its device record, carry the ids entry id + "_status", "_last_error" and "_last_sent" (pairwise distinct) and have published nothing |

## Left out

- Registering the entities with the host and storing them under `hass.data` (sensor.py:28-35) are left out. Both are host registry plumbing. `CreateSensors` models only the construction at lines 22-26.
- The host's `SensorEntity` base class and `async_write_ha_state` are left out. The hook is modelled only as the ghost `published` log. What the host does with a state is not modelled.
- SmtpSensor.LastSentSensor.UpdateSent: does not read the clock or format the time; `datetime.now()` and `strftime` are foreign calls. The caller passes the stamp already formatted, and `UpdateSent` requires it to have the shape `IsTimestamp` describes, which is what the strftime call at sensor.py:122 produces. `IsTimestamp` gives only the shape "%Y-%m-%d %H:%M:%S" produces for four-digit years. The claim that stamps rise across later sends depends on the clock, so it is not stated.
- The `@callback` decorator and the event loop are left out. The host runs updates one at a time, so there is no concurrency to model.
- The stored `_hass` reference is left out, because nothing in the model reads it. The entry is kept as the `entry` field.
- Python lets entry data values be non-strings, which the f-string would render with `str()`. They are modelled as strings.
