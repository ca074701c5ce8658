# FindMyPet view-state model

A Dafny model of the state core of the FindMyPet Android app. The app fetches a pet's last GPS position and its heart-rate history from a telemetry service. It shows the position on a map; the heart-rate stream is collected but never drawn. The model covers:

- `ViewModelState<T>`, the four-way lifecycle of a fetch (`Idle | Loading | Success(data) | Error(message)`). It is a covariant datatype (`+T`). `Error`'s message defaults to `""`. Module `States`, file `ViewModelState.dfy`.
- The records the service returns (`ApiData`, `ApiResponse`) and the reading shown on the map (`LocationData`). Module `Data`, file `Data.dfy`.
- `MainViewModel`: a class with the two observed streams `location` and `heartRate`. Each stream starts `Idle`. `GetLocation` and `GetHeartRateHistory` write `Loading`, then `Success` or `Error` with a fixed Portuguese message. The class also has the location fold `ParseApiLocationData`. Module `ViewModel`, file `MainViewModel.dfy`.
- `MainActivity`: it creates its view model once and runs both fetches each time it comes to the foreground. Module `Activity`, file `MainActivity.dfy`.

Each fetch takes the outcome of its network request as a parameter: `Ok(response)`, or `Fail` for any exception the request raised. Ghost fields `locationWrites` and `heartRateWrites` record every value written to each stream. The invariant `Valid()` says that each trace is `Idle` followed by one `Loading`, `Success`/`Error` pair per fetch, and that the stream's value is the last entry.

The fold is specified by `LocationOf`. `LocationOf` is defined from the end of the list: the last latitude, the last longitude and the first record's time. The loop in `ParseApiLocationData` runs front to back, and its postcondition ties the two together.

The app has no merged pet-status store. The heart-rate stream holds the raw response. No timestamp is reformatted. The two streams are independent, and a failure in one never touches the other.

## Model

| member | source | states |
|---|---|---|
| `States.ExactlyOneCase` | app/src/main/java/com/eduardosdl/findmypet/ViewModelState.kt:3-8 | every state is exactly one of Idle, Loading, Success, Error |
| `States.ErrorDefaultsToEmptyMessage` | app/src/main/java/com/eduardosdl/findmypet/ViewModelState.kt:7 | an Error built without a message carries the empty string |
| `States.SuccessEquality` | app/src/main/java/com/eduardosdl/findmypet/ViewModelState.kt:6 | Success carries its payload unchanged; two Success values are equal iff their payloads are |
| `States.PayloadFreeStates` | app/src/main/java/com/eduardosdl/findmypet/ViewModelState.kt:4-7 | Idle and Loading are each a single value; two Errors are equal iff their messages are |
| `ViewModel.LastContent` | app/src/main/java/com/eduardosdl/findmypet/MainViewModel.kt:51-56 | a coordinate is either its default or the content of some record measuring it |
| `ViewModel.LocationRecords` | app/src/main/java/com/eduardosdl/findmypet/MainViewModel.kt:52-55 | the records the `when` reacts to: every latitude or longitude record of the response is kept, and nothing else |
| `ViewModel.LocationRecordsAppend` | app/src/main/java/com/eduardosdl/findmypet/MainViewModel.kt:51-55 | filtering the concatenation of two record lists is the concatenation of their filterings, so kept records keep their order |
| `ViewModel.NoMatchKeepsDefault` | app/src/main/java/com/eduardosdl/findmypet/MainViewModel.kt:49-56 | with no record measuring a coordinate, that coordinate keeps its initial 0.0 |
| `ViewModel.LastMatchWins` | app/src/main/java/com/eduardosdl/findmypet/MainViewModel.kt:51-56 | the last record measuring a coordinate decides it, whatever came before |
| `ViewModel.LastContentIgnoresOtherRecords` | app/src/main/java/com/eduardosdl/findmypet/MainViewModel.kt:52-55 | records that measure neither latitude nor longitude do not change either coordinate |
| `ViewModel.LocationIgnoresOtherRecords` | app/src/main/java/com/eduardosdl/findmypet/MainViewModel.kt:49-56 | dropping the other records changes the reading only through its time, which the first record of the full response decides |
| `ViewModel.FetchCyclesExtend` | app/src/main/java/com/eduardosdl/findmypet/MainViewModel.kt:21-46 | one fetch (Loading, then Success or Error) keeps a stream's write trace well formed |
| `ViewModel.SettledBetweenFetches` | app/src/main/java/com/eduardosdl/findmypet/MainViewModel.kt:21-46 | once a fetch has completed, a stream is not left in Loading |
| `ViewModel.MainViewModel.constructor` | app/src/main/java/com/eduardosdl/findmypet/MainViewModel.kt:15-19 | both streams start Idle, and Idle is all that was written to them |
| `ViewModel.MainViewModel.SetLocation` | app/src/main/java/com/eduardosdl/findmypet/MainViewModel.kt:15-16 | assigning the location stream replaces its value and records the write |
| `ViewModel.MainViewModel.SetHeartRate` | app/src/main/java/com/eduardosdl/findmypet/MainViewModel.kt:18-19 | assigning the heart-rate stream replaces its value and records the write |
| `ViewModel.MainViewModel.GetLocation` | app/src/main/java/com/eduardosdl/findmypet/MainViewModel.kt:21-34 | writes Loading (replacing any prior state), then Success of the parsed reading or Error("Houve um erro ao buscar localização"); the heart-rate stream is untouched |
| `ViewModel.MainViewModel.GetHeartRateHistory` | app/src/main/java/com/eduardosdl/findmypet/MainViewModel.kt:36-46 | writes Loading, then Success of the response unchanged or Error("Houve um erro ao buscar histórico de batimentos cardíacos"); the location stream is untouched |
| `ViewModel.MainViewModel.ParseApiLocationData` | app/src/main/java/com/eduardosdl/findmypet/MainViewModel.kt:48-59 | the loop computes `LocationOf`: last latitude, last longitude, 0.0 where absent, and the first record's time or "" |
| `Activity.MainActivity.constructor` | app/src/main/java/com/eduardosdl/findmypet/MainActivity.kt:48 | the activity's view model is new and both its streams start Idle |
| `Activity.MainActivity.OnStart` | app/src/main/java/com/eduardosdl/findmypet/MainActivity.kt:60-64 | on every start each stream gains Loading then its result, from whatever it showed before: the parsed reading or the location message, the raw response or the heart-rate message |

## Left out

- Network access (`ApiService`, Retrofit, the base URL and the `Device-Token` header) is left out. Each fetch receives its outcome as a parameter.
- JSON decoding is left out. A response whose `result` list is missing would make the fold throw, and `GetLocation` would then end in `Error`. The model's `ApiResponse` always has a list.
- Coroutines (`viewModelScope.launch`) are left out. Each fetch runs to completion as one sequential call, so concurrent fetches and their interleavings are not modelled.
- `Log.e` is left out. It changes no observable state.
- `MutableStateFlow` drops an assignment equal to its current value. Its collectors are not notified of such an assignment. The write traces record assignments, not notifications.
- Coordinates are `Double` in the app and `real` here. They are only copied, so rounding, NaN and signed zero play no part.
- `LocationData` is a mutable object in the app. The fold updates it field by field before anything else can see it. Here it is a value that the loop reassigns.
- The rest of `MainActivity` is left out: Compose screens, toasts, the map and the chart with its hard-coded series. Its exhaustive `when` over the state is what the `ViewModelState` datatype gives.
