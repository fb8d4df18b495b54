# sillytavernapk: argument marshaller and settings rules, in Dafny

The Android app starts an embedded Node.js runtime. It does this through the
JNI function `Java_com_sillytavern_apk_MainActivity_startNodeWithArguments`.
That function turns a Java `String[]` into a C `argv` whose strings all sit in
one contiguous buffer, because Node's libuv needs contiguous argv storage. It
works in two passes:

- a sizing pass adds up `strlen + 1` over the arguments in a C `int`;
- a copy pass fills one `calloc`'d buffer of exactly that size. It copies each
  argument's bytes, writes a NUL after them, points `argv[i]` at the slot and
  advances a cursor by `len + 1`.

It then calls `node::Start(argc, argv)`, frees the buffer and returns the
result unchanged.

Module `NativeLib` (`native_lib.dfy`) models this function imperatively. The
two loops are `MeasureArguments` and `PackArguments`, and
`StartNodeWithArguments` composes them. Each argument is the modified-UTF-8
byte string JNI returns for it (`seq<bv8>`, never containing a NUL). The
buffer is an `array<bv8>`. A `char*` into the buffer is an offset, so `argv`
is an `array<nat>`. `node::Start` is a function parameter that receives
`argc`, the buffer's bytes and the offsets. The packed layout is specified by
the functions `PackedSize`, `Packed`, `SlotStart` and `Offsets`. The lemmas
prove the layout properties: exact size, cursor steps, disjoint ordered slots,
and the round trip from `argv[i]` back to argument i.

Module `MainActivity` (`main_activity.dfy`) models two settings rules from
`MainActivity.java`:

- `getPort` picks the server port and falls back to 8000.
- `readSettingsJson` ensures that `"env"` and `"config"` exist. It fills in
  either one when missing, and it falls back to a fixed literal when the file
  is missing or does not parse.

The JSON object that the code updates with `put` is a class holding a map.

The code does not check `GetStringUTFChars` or `calloc` for failure, and it
does not check the `int` size sum for overflow. The model has no error paths;
the conditions under which the code is defined are preconditions.

## Model

| member | source | states |
|---|---|---|
| `NativeLib.CString` | android/app/src/main/cpp/native-lib.cpp:31 | the bytes `strlen`-style reading gets from offset p: a NUL-free run of the buffer that ends at a NUL or at the buffer's end |
| `NativeLib.CStringOf` | android/app/src/main/cpp/native-lib.cpp:31 | a NUL-free run followed by a NUL reads back as exactly that run |
| `NativeLib.StrlenOfUtfChars` | android/app/src/main/cpp/native-lib.cpp:18-19 | `strlen` of the chars JNI hands out for an argument is that argument's byte length |
| `NativeLib.Packed` | android/app/src/main/cpp/native-lib.cpp:24 | the packed buffer contents are exactly Σ(len_i + 1) bytes long, the size the sizing pass computes |
| `NativeLib.PrefixSizeMonotone` | android/app/src/main/cpp/native-lib.cpp:16-19 | each further argument adds at least one byte to the running size |
| `NativeLib.SlotStart` | android/app/src/main/cpp/native-lib.cpp:26-37 | the cursor before argument i leaves at least one byte for each remaining argument, so it never passes the end of the buffer |
| `NativeLib.Offsets` | android/app/src/main/cpp/native-lib.cpp:25-35 | argv has exactly one entry per argument, and every entry points inside the buffer |
| `NativeLib.SlotStep` | android/app/src/main/cpp/native-lib.cpp:37 | the cursor advances by exactly len_i + 1 over argument i |
| `NativeLib.PackedPrefix` | android/app/src/main/cpp/native-lib.cpp:28-37 | after the first j iterations the buffer's prefix up to the cursor holds the first j arguments, packed |
| `NativeLib.PackedSnoc` | android/app/src/main/cpp/native-lib.cpp:33-37 | packing one more argument appends exactly its bytes and a NUL |
| `NativeLib.SlotContents` | android/app/src/main/cpp/native-lib.cpp:33-35 | slot i holds argument i's bytes followed by a NUL, inside the buffer |
| `NativeLib.ArgvRoundTrip` | android/app/src/main/cpp/native-lib.cpp:31-35 | reading the C string at argv[i] gives back argument i's bytes exactly |
| `NativeLib.SlotsDisjoint` | android/app/src/main/cpp/native-lib.cpp:34-37 | for i < j, slot i, terminator included, ends strictly before slot j starts |
| `NativeLib.MemCopy` | android/app/src/main/cpp/native-lib.cpp:33 | memcpy writes the source bytes at the offset and leaves the rest of the buffer unchanged |
| `NativeLib.WriteSlot` | android/app/src/main/cpp/native-lib.cpp:33-35 | one copy step extends the packed prefix by the argument's bytes and a NUL, sets argv[i] to the slot's start, and leaves every other buffer byte and argv entry unchanged |
| `NativeLib.MeasureArguments` | android/app/src/main/cpp/native-lib.cpp:15-22 | the sizing loop computes Σ(len_i + 1) in a C int without overflow |
| `NativeLib.PackArguments` | android/app/src/main/cpp/native-lib.cpp:26-40 | the copy loop leaves the buffer holding exactly the packed arguments and argv holding exactly each slot's start |
| `NativeLib.ArgumentCount` | android/app/src/main/cpp/native-lib.cpp:13 | the argument count is the number of arguments, and it fits in a jsize whenever the packed size fits in an int |
| `NativeLib.StartNodeWithArguments` | android/app/src/main/cpp/native-lib.cpp:7-46 | node::Start is called once with (argument count, packed buffer, slot offsets) and its result is returned unchanged; with no arguments it is still called, with count 0 and an empty buffer. The order allocate, node::Start, free is recorded only in a ghost step log that the body appends to |
| `MainActivity.JavaInt` | android/app/src/main/java/com/sillytavern/apk/MainActivity.java:288 | a JSON integer read by `optInt` becomes a 32-bit Java int: congruent to it modulo 2^32 when it fits in a long, Integer.MAX_VALUE or MIN_VALUE beyond that |
| `MainActivity.JavaIntOfInt` | android/app/src/main/java/com/sillytavern/apk/MainActivity.java:288 | a configured port that already fits in a Java int is read unchanged |
| `MainActivity.HugePortFallsBack` | android/app/src/main/java/com/sillytavern/apk/MainActivity.java:288-292 | a configured port too large for a long saturates and getPort falls back to 8000 |
| `MainActivity.GetPort` | android/app/src/main/java/com/sillytavern/apk/MainActivity.java:284-294 | the port is always in [1, 65535]; it is the configured `config.port` whenever that is a valid port, and 8000 otherwise |
| `MainActivity.Normalized` | android/app/src/main/java/com/sillytavern/apk/MainActivity.java:267-272 | after normalisation `env` and `config` are present, existing keys keep their values, and the only added keys are `env` and `config` as empty objects |
| `MainActivity.NormalizedIdempotent` | android/app/src/main/java/com/sillytavern/apk/MainActivity.java:267-272 | normalising an already normalised object changes nothing |
| `MainActivity.NormalizedKeepsPort` | android/app/src/main/java/com/sillytavern/apk/MainActivity.java:267-272 | normalisation never changes the port getPort chooses |
| `MainActivity.FallbackSettingsSound` | android/app/src/main/java/com/sillytavern/apk/MainActivity.java:263 | the fallback settings already contain `env` and `config`, and their port is 8000 |
| `MainActivity.NormalizeSettings` | android/app/src/main/java/com/sillytavern/apk/MainActivity.java:267-272 | the in-place `put`s on missing keys leave the object equal to its normalised form |
| `MainActivity.ReadSettingsJson` | android/app/src/main/java/com/sillytavern/apk/MainActivity.java:260-282 | the result always has `env` and `config`; it is the normalised parsed object, or the fallback literal when the file is missing or fails to read or parse |

## Left out

- JNI calls (`GetArrayLength`, `GetObjectArrayElement`, `GetStringUTFChars`, `ReleaseStringUTFChars`, `DeleteLocalRef`): each element access is modelled as reading the argument's modified-UTF-8 bytes plus a NUL. The conversion and the local-reference bookkeeping are not modelled. Both passes read the same argument sequence, so they see the same lengths.
- `node::Start` is foreign. It is a function parameter, and the model only states how it is called and that its result is passed through.
- `calloc` and `free`: the buffer is a fresh Dafny array of zeros, and `calloc` is assumed to succeed, as the code assumes. `free` is recorded as the last entry of a ghost step log; memory release itself is not modelled.
- NativeLib.MeasureArguments: requires the total size to fit in a 32-bit `int`. The code's signed addition has no overflow check, and overflow would be undefined behaviour.
- NativeLib.StartNodeWithArguments: requires the same size bound as MeasureArguments. The argument count then fits in `jsize` as well, because each argument takes at least one byte (`ArgumentCount`).
- NativeLib.PackArguments: requires the buffer and argv to be distinct objects. They are a heap block and a stack array in the code.
- The variable-length stack array `argv` is an `array<nat>` of offsets. Pointer values are not modelled.
- MainActivity.GetPort: `optInt` also coerces JSON strings that hold numbers (`"8080"`) and fractional numbers. The model's JSON numbers are integers, and it treats a string port as unusable, so it returns 8000 there.
- JSON text parsing (`new JSONObject(content)`) is not modelled. Its outcome is the `SettingsFile` input: parsed object, missing file, or failure.
- File I/O: `ensureSettingsFile` (including its default literal with `browserLaunchEnabled`), `writeJsonFile`, `unpackAssetsIfNeeded`, `copyAssetFolder`, `copyStream` and `deleteRecursively` are not modelled.
- The Toast shown on a parse failure is not modelled.
- `startNodeIfNeeded` is not modelled. Its point is double-checked locking on a volatile flag and starting a thread.
- `waitForServerAndLoad` is not modelled. It is HTTP polling with sleeps and UI callbacks.
- UI and WebView code is not modelled: `onCreate`, `bindUiActions`, `configureWebView`, `openSettingsDialog` and `restartApp`.
- `dpToPx` is floating-point arithmetic over display metrics and is not modelled.
