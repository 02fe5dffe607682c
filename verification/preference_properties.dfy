/** Properties that relate several preference operations to one another:
    which keys a read depends on, what a save makes later reads return, and
    the defaults the code passes. */
module PreferenceProperties {
  import opened Wrappers
  import opened JavaLang
  import opened SizeText
  import opened SettingsStore
  import opened PreferenceUtils

  /** Two stores that hold the same thing under `key` (or both lack it). */
  predicate SameAt(store: Store, other: Store, key: string) {
    (key in store <==> key in other) && (key in store ==> store[key] == other[key])
  }

  /** The size pair for a facing depends on that facing's two keys and on
      nothing else in the store. */
  lemma SizePairReadsOnlyItsKeys(store: Store, other: Store, cameraId: Int32)
    requires cameraId == CameraFacingBack ==>
      SameAt(store, other, PrefKeyRearCameraPreviewSize) && SameAt(store, other, PrefKeyRearCameraPictureSize)
    requires cameraId == CameraFacingFront ==>
      SameAt(store, other, PrefKeyFrontCameraPreviewSize) && SameAt(store, other, PrefKeyFrontCameraPictureSize)
    ensures GetCameraPreviewSizePair(store, cameraId) == GetCameraPreviewSizePair(other, cameraId)
  {
  }

  /** The rear keys and the front keys never mix: saving under a front key
      leaves the rear pair as it was, and the other way round. */
  lemma SizePairFacingsIndependent(store: Store, key: string, value: Option<string>)
    ensures key == PrefKeyFrontCameraPreviewSize || key == PrefKeyFrontCameraPictureSize ==>
      GetCameraPreviewSizePair(PutString(store, key, value), CameraFacingBack) == GetCameraPreviewSizePair(store, CameraFacingBack)
    ensures key == PrefKeyRearCameraPreviewSize || key == PrefKeyRearCameraPictureSize ==>
      GetCameraPreviewSizePair(PutString(store, key, value), CameraFacingFront) == GetCameraPreviewSizePair(store, CameraFacingFront)
  {
  }

  /** A bad facing fails the same way whatever the store holds. */
  lemma InvalidFacingReadsNothing(store: Store, other: Store, cameraId: Int32)
    requires !IsCameraFacing(cameraId)
    ensures GetCameraPreviewSizePair(store, cameraId) == GetCameraPreviewSizePair(other, cameraId) == Err(IllegalArgumentException)
  {
  }

  /** Sizes saved in "WxH" form under a facing's two keys come back as that
      facing's size pair. */
  lemma SizePairOfSavedSizes(store: Store, cameraId: Int32, preview: Size, picture: Size)
    requires IsCameraFacing(cameraId)
    requires preview.width >= 0 && preview.height >= 0 && picture.width >= 0 && picture.height >= 0
    ensures
      var previewKey := if cameraId == CameraFacingBack then PrefKeyRearCameraPreviewSize else PrefKeyFrontCameraPreviewSize;
      var pictureKey := if cameraId == CameraFacingBack then PrefKeyRearCameraPictureSize else PrefKeyFrontCameraPictureSize;
      var saved := PutString(PutString(store, previewKey, Some(SizeToString(preview))), pictureKey, Some(SizeToString(picture)));
      GetCameraPreviewSizePair(saved, cameraId) == Ok(Some(SizePair(preview, picture)))
  {
    ParseSizeOfToString(preview);
    ParseSizeOfToString(picture);
  }

  /** For either facing, with its preview size or its picture size not
      stored, there is no pair, whatever the other key holds. */
  lemma SizePairNeedsBothSizes(store: Store, cameraId: Int32)
    requires IsCameraFacing(cameraId)
    requires
      var previewKey := if cameraId == CameraFacingBack then PrefKeyRearCameraPreviewSize else PrefKeyFrontCameraPreviewSize;
      var pictureKey := if cameraId == CameraFacingBack then PrefKeyRearCameraPictureSize else PrefKeyFrontCameraPictureSize;
      previewKey !in store || pictureKey !in store
    ensures GetCameraPreviewSizePair(store, cameraId) == Ok(None)
  {
  }

  /** Rear sizes "640x480" and "1280x720" give that pair for the back camera. */
  lemma SizePairExample()
    ensures
      var store := map[PrefKeyRearCameraPreviewSize := StringValue("640x480"),
                       PrefKeyRearCameraPictureSize := StringValue("1280x720")];
      GetCameraPreviewSizePair(store, CameraFacingBack) == Ok(Some(SizePair(Size(640, 480), Size(1280, 720))))
  {
    assert SizeToString(Size(640, 480)) == "640x480";
    assert SizeToString(Size(1280, 720)) == "1280x720";
    SizePairOfSavedSizes(map[], CameraFacingBack, Size(640, 480), Size(1280, 720));
  }

  /** On an empty store both feature flags are off. */
  lemma EmptyStoreFlagsOff()
    ensures ShouldHideDetectionInfo(map[]) == Ok(false)
    ensures IsCameraLiveViewportEnabled(map[]) == Ok(false)
  {
  }

  /** The custom options read the same flags as the plain options and agree
      with them on every shared field. */
  lemma CustomOptionsExtendPlain<M>(store: Store, localModel: M, multipleKey: string, classificationKey: string, mode: Int32)
    ensures
      var plain := GetObjectDetectorOptions(store, multipleKey, classificationKey, mode);
      var custom := GetCustomObjectDetectorOptions(store, localModel, multipleKey, classificationKey, mode);
      (plain.Ok? <==> custom.Ok?) &&
      (plain.Ok? ==>
        custom.value.detectorMode == plain.value.detectorMode &&
        custom.value.multipleObjectsEnabled == plain.value.multipleObjectsEnabled &&
        custom.value.classificationEnabled == plain.value.classificationEnabled)
  {
  }

  /** A mode saved as the text of an `int` reads back as that `int`; a mode
      saved as null reads back as the default. */
  lemma ModeValueAfterSave(store: Store, prefKey: string, n: Int32, defaultValue: Int32)
    ensures GetModeTypePreferenceValue(PutString(store, prefKey, Some(IntToString(n))), prefKey, defaultValue) == Ok(n)
    ensures GetModeTypePreferenceValue(PutString(store, prefKey, None), prefKey, defaultValue) == Ok(defaultValue)
  {
    ParseIntOfValueOf(n);
  }

  /** A stored mode whose text has a character other than a digit (or a
      leading sign) is an error, never the default. */
  lemma ModeValueRejectsNonNumeric(store: Store, prefKey: string, defaultValue: Int32, k: nat)
    requires prefKey in store && store[prefKey].StringValue?
    requires k < |store[prefKey].s| && !IsDigit(store[prefKey].s[k])
    requires k == 0 ==> store[prefKey].s[0] != '-' && store[prefKey].s[0] != '+'
    ensures GetModeTypePreferenceValue(store, prefKey, defaultValue) == Err(NumberFormatException)
  {
  }

  /** With none of the face-detector keys stored, the options are the
      defaults the code passes: every mode its ML Kit constant, tracking on and a
      minimum face size of "0.1". */
  lemma FaceDetectorDefaults(store: Store, defaults: FaceModeDefaults, parsesAsFloat: string -> bool)
    requires PrefKeyLandmarkMode !in store && PrefKeyContourMode !in store
    requires PrefKeyClassificationMode !in store && PrefKeyPerformanceMode !in store
    requires PrefKeyFaceTracking !in store && PrefKeyMinFaceSize !in store
    requires parsesAsFloat(DefaultMinFaceSize)
    ensures GetFaceDetectorOptions(store, defaults, parsesAsFloat) == Ok(FaceDetectorOptions(
      defaults.landmarkModeAll, defaults.contourModeAll, defaults.classificationModeAll,
      defaults.performanceModeFast, DefaultMinFaceSize, true))
  {
  }

  /** One face-detector mode stored as text that is not an `int` makes the
      whole face-detector read fail. */
  lemma FaceDetectorRejectsMalformedMode(store: Store, defaults: FaceModeDefaults, parsesAsFloat: string -> bool, prefKey: string)
    requires prefKey == PrefKeyLandmarkMode || prefKey == PrefKeyContourMode ||
             prefKey == PrefKeyClassificationMode || prefKey == PrefKeyPerformanceMode
    requires prefKey in store && store[prefKey].StringValue? && ParseInt(store[prefKey].s).Err?
    ensures GetFaceDetectorOptions(store, defaults, parsesAsFloat).Err?
  {
  }
}
