# FCM client message builder, modelled in Dafny

This project models the message builder of goFCM, a Go client for the Firebase Cloud
Messaging (FCM) legacy HTTP API. A `Client` holds a server key and one downstream
`HTTPMessage`. Twelve `Set*` methods fill in that message in place, one field (or the
whole notification sub-record) per call, and `SetServerKey` replaces the key. Most of them
are plain assignments. Four do more:

- `SetPriority` stores `"high"` when given `"high"` and `"normal"` for anything else;
- `SetTimeToLive` stores 2419200 seconds (four weeks) whatever it is given;
- `SetRegistrationIds` appends to the recipient list instead of replacing it;
- `SetNotification` overwrites all fourteen fields of the notification at once.

`fcm.dfy` (module `Fcm`) holds the data model and the operations:

- the datatypes `NotificationPayload` and `HTTPMessage<D>`; the custom data payload is opaque, of a caller-chosen type `D`, with `None` for Go's nil;
- `Setter<D>`, one constructor per `Set*` method with its arguments;
- `Apply`, the client state after one call, and `Run`, the state after a sequence of calls;
- `Writes`, the message fields each call may change, so frames can be stated field by field;
- the class `Client<D>`, whose fields are those of the Go struct. Its methods update the fields in place as the Go methods do, and each is proved to leave the object in the state `Apply` gives.

`fcm_properties.dfy` (module `FcmProperties`) proves what the setters promise. Some lemmas are
about one call: normalisation, the constant time to live, append-not-replace,
overwrite-everything, plain setters storing exactly their argument, and idempotence. Others hold
for any sequence of calls: a field nobody writes keeps its value, the notification key never
changes, registration ids accumulate in call order, and priority and time to live stay within
their ranges.

The documented intent of `SetTimeToLive` differs from its code. The field comment
(fcm.go:26) and the guard `timeToLive > 2419200` describe a clamp. But both branches of the
code store 2419200, so a smaller value is never kept. The model follows the code
(`StoredTimeToLive`). The clamp is written out as `ClampTimeToLive`, and
`StoredTimeToLiveIsClampOnlyAtOrAboveMaximum` proves the two agree exactly for inputs at or
above the maximum.

## Model

| member | source | states |
|---|---|---|
| Fcm.NormalizePriority | fcm.go:165-170 | the stored priority is "high" or "normal", and it is "high" exactly when the input is "high" |
| Fcm.StoredTimeToLive | fcm.go:188-194 | the stored time to live is 2419200 whatever the input |
| Fcm.ClampTimeToLive | fcm.go:189 | the clamp the guard and the field's documentation describe: never above 2419200, inputs up to the maximum kept, larger ones cut to it |
| Fcm.Apply | fcm.go:116-199 | one setter call changes the server key only for SetServerKey, and changes no message field outside the one it writes |
| Fcm.Client.constructor | fcm.go:71-74 | a client literal holds exactly the given server key and message |
| Fcm.Client.SetCollapseKey | fcm.go:117-119 | stores the collapse key; every other field and the server key are unchanged |
| Fcm.Client.SetCondition | fcm.go:122-124 | stores the condition; every other field and the server key are unchanged |
| Fcm.Client.SetContentAvailable | fcm.go:127-129 | stores the content-available flag; everything else unchanged |
| Fcm.Client.SetData | fcm.go:132-134 | stores the data payload (nil included) as given; everything else unchanged |
| Fcm.Client.SetDryRun | fcm.go:137-139 | stores the dry-run flag; everything else unchanged |
| Fcm.Client.SetMutableContent | fcm.go:142-144 | stores the mutable-content flag; everything else unchanged |
| Fcm.Client.SetNotification | fcm.go:147-162 | after fourteen in-place writes the notification equals the payload built from the fourteen arguments in order; no top-level field or the server key changes |
| Fcm.Client.SetPriority | fcm.go:165-170 | after reassigning its parameter, stores "high" for "high" and "normal" otherwise; nothing else changes |
| Fcm.Client.SetRegistrationIds | fcm.go:173-175 | the recipient list becomes the old list followed by the new ids; nothing else changes |
| Fcm.Client.SetRestrictedPackageName | fcm.go:178-180 | stores the package name; everything else unchanged |
| Fcm.Client.SetServerKey | fcm.go:183-185 | stores the server key and leaves the message untouched |
| Fcm.Client.SetTimeToLive | fcm.go:188-194 | both branches store 2419200; nothing else changes |
| Fcm.Client.SetTo | fcm.go:197-199 | stores the single recipient; everything else unchanged |
| FcmProperties.SetPriorityNormalizes | fcm.go:165-170 | after SetPriority the priority is "high" iff the input was "high", otherwise "normal"; only the priority field is written |
| FcmProperties.SetTimeToLiveStoresMaximum | fcm.go:188-194 | after SetTimeToLive the time to live is 2419200 whatever the input, and only that field is written |
| FcmProperties.SetTimeToLiveIgnoresInput | fcm.go:188-194 | any two inputs to SetTimeToLive leave the same state |
| FcmProperties.StoredTimeToLiveIsClampOnlyAtOrAboveMaximum | fcm.go:188-194 | the stored value equals the documented clamp exactly when the input is at least 2419200 |
| FcmProperties.SetRegistrationIdsAppends | fcm.go:173-175 | the list grows by the number of new ids, old entries keep their positions, the new ids follow in order |
| FcmProperties.SetRegistrationIdsNotIdempotent | fcm.go:173-175 | calling twice with a non-empty list appends it twice, so the state differs from calling once |
| FcmProperties.SetNotificationOverwrites | fcm.go:147-162 | the notification becomes the given payload whatever it was; the rest of the message and the server key are unchanged |
| FcmProperties.PlainSettersStoreArgument | fcm.go:117-199 | each plain setter (collapse key, condition, content available, data, dry run, mutable content, notification, restricted package name, to) writes exactly its field, with exactly its argument, and nothing else |
| FcmProperties.SetServerKeyKeepsMessage | fcm.go:183-185 | SetServerKey yields the new key with the old message |
| FcmProperties.SettersIdempotent | fcm.go:117-199 | every setter except SetRegistrationIds gives the same state applied twice as applied once |
| FcmProperties.NoSetterWritesNotificationKey | fcm.go:116-199 | no setter writes the notification key or the delay-while-idle flag |
| FcmProperties.FieldsDetermineMessage | fcm.go:16-31 | two messages that agree on all fourteen fields are equal |
| FcmProperties.RunFrame | fcm.go:116-199 | a field that no call in a sequence writes keeps its value through the sequence |
| FcmProperties.RunKeepsServerKey | fcm.go:183-185 | without a SetServerKey call, the server key keeps its value through any sequence of calls |
| FcmProperties.RunKeepsNotificationKey | fcm.go:20 | no sequence of setter calls changes the notification key |
| FcmProperties.RunAccumulatesRegistrationIds | fcm.go:173-175 | after any sequence of calls the recipient list is the initial list followed by every id passed to SetRegistrationIds, in call order |
| FcmProperties.RunPriorityNormalized | fcm.go:165-170 | after any sequence of calls the priority is its initial value, "high" or "normal", and after any SetPriority call it is "high" or "normal" |
| FcmProperties.RunTimeToLive | fcm.go:188-194 | after any sequence of calls the time to live is its initial value or 2419200, and after any SetTimeToLive call it is 2419200 |
| FcmProperties.ZeroClientBounds | fcm.go:71-74 | from the zero client, any sequence of calls keeps the time to live in 0..2419200, the priority in {"", "high", "normal"} and the notification key empty |
| FcmProperties.TargetsNotExclusive | fcm.go:17-20 | on any client, SetTo, SetRegistrationIds and SetCondition all take effect and the notification key stays, so all four targets can be non-empty at once; no setter rejects this |
| FcmProperties.RegistrationIdsExample | fcm.go:173-175 | setting ["a"] and then ["b", "c"] on an empty list gives ["a", "b", "c"] |
| FcmProperties.ClientExample | fcm.go:165-194 | through the class's methods: two registration-id calls accumulate, "HIGH" is stored as "normal", and 60 is stored as 2419200 |

## Left out

- `SendMessage` (fcm.go:77-114) is not modelled. It serialises the message, sends the HTTP POST, reads the body and branches on the status code. That is network I/O through library code that is not part of this model.
- JSON encoding and decoding (`encoding/json`) is foreign library code, so the model makes no claim about which keys appear on the wire or how `omitempty` treats each field.
- `HTTPResponse` and `HTTPResponseResult` (fcm.go:52-68) are filled only by `SendMessage` and have no logic, so they are not modelled.
- The contents of the `Data` payload are opaque: the model stores and reads back a value of a type parameter and reasons about nothing inside it.
- Go's distinction between a nil slice and an empty slice of registration ids is not modelled; both are `[]`.
- Go's `int` is 32 or 64 bits wide depending on the platform, but the model uses unbounded integers. `SetTimeToLive` only compares its argument with 2419200 and stores that constant, which fits in either width, so no wrap-around can occur.
- Concurrent use of one `Client` is a data race in Go. The model covers one caller making calls one after another.
- Callers can also write the exported struct fields directly; the model covers only changes made through the `Set*` methods.
- Fcm.Client.SetRegistrationIds: the recipient list is a value, so the model assumes the client's slice shares no backing array with any slice outside the client. Go's `append` (fcm.go:174) writes into spare capacity of the existing backing array, so a slice passed in a client literal, or a copy of the message, can later be appended to and change the client's recipients without any call on the client. `RunAccumulatesRegistrationIds` and the frame lemmas hold only without such sharing.
