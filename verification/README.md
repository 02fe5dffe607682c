# Preference-to-configuration layer (PreferenceUtils)

This project is a Dafny model of `PreferenceUtils`, the class that reads the
app's shared preferences and turns them into typed configuration. The
preferences are loosely typed: booleans, strings, integers stored as strings,
and camera sizes stored as "WxH" text. The outputs are the camera's preview
and picture `SizePair` and the option records for ML Kit's object, custom
object and face detectors. The model proves facts about these outputs:

- the defaults used when a key is absent;
- the two failure policies: the size pair swallows every failure and
  yields null, while a malformed face-detector mode throws;
- which keys each read depends on;
- what a `saveString` makes later reads return.

Files:

- `wrappers.dfy`: `Option` (a Java reference that may be null) and `Result`
  (a call that returns or throws).
- `java_lang.dfy`: Java's 32-bit `int`, the exceptions involved,
  `String.valueOf(int)` and `Integer.parseInt`, with the round trip between
  them.
- `size_text.dfy`: `Size` and an assumed "WxH" grammar for `Size.parseSize`,
  with its round trip.
- `settings_store.dfy`: the preference store as a map from key to a boolean
  or a string, typed reads, and the `saveString` write. The write is a class
  method that updates the map in place.
- `preference_utils.dfy`: the getters of `PreferenceUtils`, as pure functions
  of the store contents.
- `preference_properties.dfy`: lemmas that relate several operations.

Modelling choices:

- The store is passed explicitly. It does not come from the
  `PreferenceManager` singleton.
- Keys are the resolved `R.string` ids. Their resource texts are not part of
  this model, so each key constant is the name of its id.
- Android's typed reads cast the stored object, so `getString` on a stored
  boolean throws `ClassCastException`, and `getBoolean` on a stored string
  throws as well. The model gives `Err(ClassCastException)` in both cases, so
  the two flags and the detector options can fail too.
- `putString(key, null)` removes the key. `saveString` with a null value is
  modelled that way.
- `CameraSource.CAMERA_FACING_BACK` and `CAMERA_FACING_FRONT` are taken to be
  0 and 1. `CameraSource` is not part of this model.
- The detector mode, the four face-detector mode constants (`LANDMARK_MODE_ALL`
  and so on) and the `LocalModel` are opaque values the caller supplies.
- ML Kit's builders start with every flag off. A conditional `enable…()` is
  therefore modelled as setting the field to the boolean read.
  `maxPerObjectLabelCount` is `None` where the builder's own default is left
  in place.
- Every failure inside `getCameraPreviewSizePair`'s `try` becomes `Ok(None)`.
  The argument check is outside the `try`, so a bad facing gives
  `Err(IllegalArgumentException)`.

## Model

| member | source | states |
|---|---|---|
| `JavaLang.ParseInt` | app/src/main/java/com/rideflag/app/preference/PreferenceUtils.java:188 | the only exception `Integer.parseInt` raises is NumberFormatException; a result is only produced for non-empty text, and a negative result only from text starting with '-' |
| `JavaLang.IntToString` | app/src/main/java/com/rideflag/app/preference/PreferenceUtils.java:188 | `String.valueOf(int)` is non-empty and starts with '-' exactly for negative values |
| `JavaLang.DecimalTextValue` | app/src/main/java/com/rideflag/app/preference/PreferenceUtils.java:188 | the digits `String.valueOf` writes for a non-negative number denote that number |
| `JavaLang.ParseIntOfValueOf` | app/src/main/java/com/rideflag/app/preference/PreferenceUtils.java:188 | for every `int` d, `Integer.parseInt(String.valueOf(d)) == d`, so the default of a mode read always parses back to itself |
| `JavaLang.ParseIntRejectsNonDigit` | app/src/main/java/com/rideflag/app/preference/PreferenceUtils.java:188 | any character that is neither a digit nor a leading sign makes the parse throw NumberFormatException |
| `JavaLang.ParseIntOfDigits` | app/src/main/java/com/rideflag/app/preference/PreferenceUtils.java:188 | a plain digit string parses to the number it denotes when that fits in an `int`, and throws when it overflows |
| `JavaLang.ParseIntOfSignedDigits` | app/src/main/java/com/rideflag/app/preference/PreferenceUtils.java:188 | digits after a leading '-' or '+' parse to their value, negated for '-', when it fits in an `int`, and throw NumberFormatException when it does not |
| `JavaLang.ParseIntRejectsBareSign` | app/src/main/java/com/rideflag/app/preference/PreferenceUtils.java:188 | "", "-" and "+" do not parse |
| `SizeText.ParseSize` | app/src/main/java/com/rideflag/app/preference/PreferenceUtils.java:70-71 | a parsed size never has a negative side |
| `SizeText.ParseSizeOfToString` | app/src/main/java/com/rideflag/app/preference/PreferenceUtils.java:70-71 | a non-negative size written as "WxH" parses back to the same size |
| `SizeText.ParseSizeNeedsSeparator` | app/src/main/java/com/rideflag/app/preference/PreferenceUtils.java:70-71 | text without an 'x' never parses |
| `SizeText.ParseSizeNeedsBothSides` | app/src/main/java/com/rideflag/app/preference/PreferenceUtils.java:70-71 | text whose first 'x' is at either end never parses |
| `SettingsStore.GetString` | app/src/main/java/com/rideflag/app/preference/PreferenceUtils.java:70 | `getString` gives the default for an absent key, the stored text for a string value, and ClassCastException for a boolean value |
| `SettingsStore.GetBoolean` | app/src/main/java/com/rideflag/app/preference/PreferenceUtils.java:80 | `getBoolean` gives the default for an absent key, the stored boolean for a boolean value, and ClassCastException for a string value |
| `SettingsStore.PutString` | app/src/main/java/com/rideflag/app/preference/PreferenceUtils.java:48 | after `putString(k, v)`, reading `k` as a string gives `v` (null: the key is gone) and every other key holds what it held |
| `SettingsStore.PutStringFramesOtherKeys` | app/src/main/java/com/rideflag/app/preference/PreferenceUtils.java:45-50 | a write leaves every string and boolean read of every other key unchanged, whatever the default |
| `SettingsStore.PreferenceStore.SaveString` | app/src/main/java/com/rideflag/app/preference/PreferenceUtils.java:45-50 | `saveString(k, v)` updates the shared store in place: `k` then reads as `v` and no other key changes |
| `PreferenceUtils.StoredSize` | app/src/main/java/com/rideflag/app/preference/PreferenceUtils.java:67-74 | a size is read exactly when the key holds a string that parses; a missing key, a boolean value or bad text gives no size |
| `PreferenceUtils.GetCameraPreviewSizePair` | app/src/main/java/com/rideflag/app/preference/PreferenceUtils.java:53-75 | a facing other than back or front is IllegalArgumentException; back reads the rear keys and front the front keys; the pair is present exactly when both sizes are stored and parse, and holds those sizes; otherwise null |
| `PreferenceUtils.ShouldHideDetectionInfo` | app/src/main/java/com/rideflag/app/preference/PreferenceUtils.java:77-81 | the boolean stored under the info-hide key, false when absent, ClassCastException for a string |
| `PreferenceUtils.IsCameraLiveViewportEnabled` | app/src/main/java/com/rideflag/app/preference/PreferenceUtils.java:191-195 | the boolean stored under the live-viewport key, false when absent, ClassCastException for a string |
| `PreferenceUtils.GetObjectDetectorOptions` | app/src/main/java/com/rideflag/app/preference/PreferenceUtils.java:83-105 | fails exactly when a string sits under one of the two keys; otherwise the mode is the caller's and each of multiple-objects and classification is on exactly when its key is absent or holds true |
| `PreferenceUtils.GetCustomObjectDetectorOptions` | app/src/main/java/com/rideflag/app/preference/PreferenceUtils.java:109-132 | as the plain options, with the model passed through unchanged and a per-object label cap of 1 exactly when classification is on |
| `PreferenceUtils.GetModeTypePreferenceValue` | app/src/main/java/com/rideflag/app/preference/PreferenceUtils.java:184-189 | an absent key gives the default; a stored string gives `Integer.parseInt` of it, including its failure, never the default; a boolean gives ClassCastException |
| `PreferenceUtils.ParseMinFaceSize` | app/src/main/java/com/rideflag/app/preference/PreferenceUtils.java:160-164 | the minimum face size succeeds exactly when the text is present and accepted as a float, and is that text |
| `PreferenceUtils.GetFaceDetectorOptions` | app/src/main/java/com/rideflag/app/preference/PreferenceUtils.java:134-177 | succeeds exactly when the four mode reads, the tracking read and the min-face-size read all succeed; each mode is its mode read, tracking is on unless false is stored, and the min face size is the stored text or "0.1" |
| `PreferenceProperties.SizePairReadsOnlyItsKeys` | app/src/main/java/com/rideflag/app/preference/PreferenceUtils.java:57-71 | two stores that agree on the selected facing's two keys give the same size pair |
| `PreferenceProperties.SizePairFacingsIndependent` | app/src/main/java/com/rideflag/app/preference/PreferenceUtils.java:59-65 | writing a front key never changes the back pair and writing a rear key never changes the front pair |
| `PreferenceProperties.InvalidFacingReadsNothing` | app/src/main/java/com/rideflag/app/preference/PreferenceUtils.java:54-56 | a bad facing gives IllegalArgumentException whatever the store holds |
| `PreferenceProperties.SizePairOfSavedSizes` | app/src/main/java/com/rideflag/app/preference/PreferenceUtils.java:67-74 | sizes saved as "WxH" under a facing's two keys come back as exactly that pair |
| `PreferenceProperties.SizePairNeedsBothSizes` | app/src/main/java/com/rideflag/app/preference/PreferenceUtils.java:57-74 | for either facing, with its preview key or its picture key absent there is no pair, never a partial one |
| `PreferenceProperties.SizePairExample` | app/src/main/java/com/rideflag/app/preference/PreferenceUtils.java:53-75 | rear "640x480" and "1280x720" give the pair (640, 480), (1280, 720) for the back camera |
| `PreferenceProperties.EmptyStoreFlagsOff` | app/src/main/java/com/rideflag/app/preference/PreferenceUtils.java:77-81 | on an empty store both feature flags are false |
| `PreferenceProperties.CustomOptionsExtendPlain` | app/src/main/java/com/rideflag/app/preference/PreferenceUtils.java:109-132 | the custom options fail exactly when the plain ones do, and agree with them on mode and both flags |
| `PreferenceProperties.ModeValueAfterSave` | app/src/main/java/com/rideflag/app/preference/PreferenceUtils.java:184-189 | a mode saved as the text of an `int` reads back as that `int`; a mode saved as null reads back as the default |
| `PreferenceProperties.ModeValueRejectsNonNumeric` | app/src/main/java/com/rideflag/app/preference/PreferenceUtils.java:184-189 | a stored mode with a non-digit character (other than a leading sign) throws NumberFormatException, never the default |
| `PreferenceProperties.FaceDetectorDefaults` | app/src/main/java/com/rideflag/app/preference/PreferenceUtils.java:134-177 | with no face-detector key stored, the options are the four ML Kit defaults, tracking on and min face size "0.1" |
| `PreferenceProperties.FaceDetectorRejectsMalformedMode` | app/src/main/java/com/rideflag/app/preference/PreferenceUtils.java:134-154 | one mode stored as text that is not an `int` makes the whole face-detector read fail |

## Left out

- `Context.getString` resource lookup and the `PreferenceManager` singleton: keys are already-resolved strings, and the store is a parameter.
- The asynchronous commit of `apply()`: the write is visible at once.
- `Float.parseFloat`: the float value of the minimum face size is not computed. The text is kept, and a predicate the caller supplies decides whether the text is accepted.
- `Integer.parseInt` also accepts non-ASCII Unicode decimal digits. The model accepts ASCII digits only.
- `Size.parseSize` is library code outside this model. Its grammar here is an assumption: up to the first 'x', then after it, non-empty ASCII digits that fit in an `int` on each side.
- `SizeText.ParseSize`: its own contract only says that sides are non-negative. What it accepts is stated by `ParseSizeOfToString` and the two rejection lemmas.
- `GetFaceDetectorOptions`: says when the read fails, but not which exception is raised. That exception is the one from the first read that fails, in source order.
- ML Kit builder internals and the numeric values of the detector and face-mode constants: these are opaque values.
- `POSE_DETECTOR_PERFORMANCE_MODE_FAST` and the pose imports: they are declared but never used.
- `FaceGraphic.kt`: canvas drawing over floats, with nothing to state about preferences.
