/** The preference-to-configuration layer: reads loosely typed stored settings
    and turns them into the typed option records the camera and the ML Kit
    detectors take.

    The store is passed explicitly. Keys are the resolved `R.string` ids; their
    resource texts are outside this model, so each key is written as the
    name of its id. Detector modes, face-detector mode constants and the
    custom model are opaque values the caller supplies. */
module PreferenceUtils {
  import opened Wrappers
  import opened JavaLang
  import opened SizeText
  import opened SettingsStore

  // Resolved preference keys.
  const PrefKeyRearCameraPreviewSize := "pref_key_rear_camera_preview_size"
  const PrefKeyRearCameraPictureSize := "pref_key_rear_camera_picture_size"
  const PrefKeyFrontCameraPreviewSize := "pref_key_front_camera_preview_size"
  const PrefKeyFrontCameraPictureSize := "pref_key_front_camera_picture_size"
  const PrefKeyInfoHide := "pref_key_info_hide"
  const PrefKeyCameraLiveViewport := "pref_key_camera_live_viewport"
  const PrefKeyLandmarkMode := "pref_key_live_preview_face_detection_landmark_mode"
  const PrefKeyContourMode := "pref_key_live_preview_face_detection_contour_mode"
  const PrefKeyClassificationMode := "pref_key_live_preview_face_detection_classification_mode"
  const PrefKeyPerformanceMode := "pref_key_live_preview_face_detection_performance_mode"
  const PrefKeyFaceTracking := "pref_key_live_preview_face_detection_face_tracking"
  const PrefKeyMinFaceSize := "pref_key_live_preview_face_detection_min_face_size"

  /** The default text of the minimum face size preference. */
  const DefaultMinFaceSize := "0.1"

  // CameraSource.CAMERA_FACING_BACK and CAMERA_FACING_FRONT.
  const CameraFacingBack: Int32 := 0
  const CameraFacingFront: Int32 := 1

  /** `CameraSource.SizePair`. */
  datatype SizePair = SizePair(preview: Size, picture: Size)

  /** `ObjectDetectorOptions` as built: the flags start disabled in the
      builder, so each is exactly what was enabled. */
  datatype ObjectDetectorOptions = ObjectDetectorOptions(
    detectorMode: Int32,
    multipleObjectsEnabled: bool,
    classificationEnabled: bool)

  /** `CustomObjectDetectorOptions` as built; `maxPerObjectLabelCount` is
      None where the builder's own default is left in place. */
  datatype CustomObjectDetectorOptions<M> = CustomObjectDetectorOptions(
    localModel: M,
    detectorMode: Int32,
    multipleObjectsEnabled: bool,
    classificationEnabled: bool,
    maxPerObjectLabelCount: Option<Int32>)

  /** `FaceDetectorOptions` as built. The minimum face size is kept as the
      text `Float.parseFloat` accepted. */
  datatype FaceDetectorOptions = FaceDetectorOptions(
    landmarkMode: Int32,
    contourMode: Int32,
    classificationMode: Int32,
    performanceMode: Int32,
    minFaceSize: string,
    trackingEnabled: bool)

  /** The ML Kit constants used as defaults for the four face-detector modes:
      LANDMARK_MODE_ALL, CONTOUR_MODE_ALL, CLASSIFICATION_MODE_ALL and
      PERFORMANCE_MODE_FAST. */
  datatype FaceModeDefaults = FaceModeDefaults(
    landmarkModeAll: Int32,
    contourModeAll: Int32,
    classificationModeAll: Int32,
    performanceModeFast: Int32)

  predicate IsCameraFacing(cameraId: Int32) {
    cameraId == CameraFacingBack || cameraId == CameraFacingFront
  }

  /** `Size.parseSize(getString(key, null))` with every exception it can
      throw (a missing key, a boolean value, bad text) turned into None. */
  function StoredSize(store: Store, key: string): (r: Option<Size>)
    ensures r.Some? <==> key in store && store[key].StringValue? && ParseSize(store[key].s).Some?
    ensures r.Some? ==> r == ParseSize(store[key].s)
  {
    match GetString(store, key, None)
    case Ok(Some(s)) => ParseSize(s)
    case _ => None
  }

  /** `getCameraPreviewSizePair`. A facing other than back or front fails the
      argument check before anything is read. Otherwise the rear or the
      front pair of keys is read, and the result is a pair only when both
      sizes are stored and parse; any failure gives null (None). */
  function GetCameraPreviewSizePair(store: Store, cameraId: Int32): (r: Result<Option<SizePair>, JavaException>)
    ensures r.Err? <==> !IsCameraFacing(cameraId)
    ensures r.Err? ==> r.error == IllegalArgumentException
    ensures r.Ok? ==>
      var previewKey := if cameraId == CameraFacingBack then PrefKeyRearCameraPreviewSize else PrefKeyFrontCameraPreviewSize;
      var pictureKey := if cameraId == CameraFacingBack then PrefKeyRearCameraPictureSize else PrefKeyFrontCameraPictureSize;
      (r.value.Some? <==> StoredSize(store, previewKey).Some? && StoredSize(store, pictureKey).Some?) &&
      (r.value.Some? ==>
        r.value.value.preview == StoredSize(store, previewKey).value &&
        r.value.value.picture == StoredSize(store, pictureKey).value)
  {
    if !IsCameraFacing(cameraId) then Err(IllegalArgumentException)
    else
      var (previewKey, pictureKey) :=
        if cameraId == CameraFacingBack then (PrefKeyRearCameraPreviewSize, PrefKeyRearCameraPictureSize)
        else (PrefKeyFrontCameraPreviewSize, PrefKeyFrontCameraPictureSize);
      match (StoredSize(store, previewKey), StoredSize(store, pictureKey))
      case (Some(preview), Some(picture)) => Ok(Some(SizePair(preview, picture)))
      case _ => Ok(None)
  }

  /** `shouldHideDetectionInfo`: the stored boolean, false when absent. */
  function ShouldHideDetectionInfo(store: Store): (r: Result<bool, JavaException>)
    ensures PrefKeyInfoHide !in store ==> r == Ok(false)
    ensures PrefKeyInfoHide in store ==>
      r == match store[PrefKeyInfoHide] case BoolValue(b) => Ok(b) case StringValue(_) => Err(ClassCastException)
  {
    GetBoolean(store, PrefKeyInfoHide, false)
  }

  /** `isCameraLiveViewportEnabled`: the stored boolean, false when absent. */
  function IsCameraLiveViewportEnabled(store: Store): (r: Result<bool, JavaException>)
    ensures PrefKeyCameraLiveViewport !in store ==> r == Ok(false)
    ensures PrefKeyCameraLiveViewport in store ==>
      r == match store[PrefKeyCameraLiveViewport] case BoolValue(b) => Ok(b) case StringValue(_) => Err(ClassCastException)
  {
    GetBoolean(store, PrefKeyCameraLiveViewport, false)
  }

  /** A boolean preference that defaults to true is on unless false is stored. */
  predicate EnabledByDefault(store: Store, key: string) {
    key !in store || store[key] == BoolValue(true)
  }

  /** No string is stored under `key`, so reading it as a boolean succeeds. */
  predicate ReadableAsBoolean(store: Store, key: string) {
    key !in store || store[key].BoolValue?
  }

  /** `getObjectDetectorOptions`: the caller's mode, and each flag on exactly
      when its stored boolean is true or absent. */
  function GetObjectDetectorOptions(
    store: Store, prefKeyForMultipleObjects: string, prefKeyForClassification: string, mode: Int32
  ): (r: Result<ObjectDetectorOptions, JavaException>)
    ensures r.Ok? <==> ReadableAsBoolean(store, prefKeyForMultipleObjects) && ReadableAsBoolean(store, prefKeyForClassification)
    ensures r.Err? ==> r.error == ClassCastException
    ensures r.Ok? ==> r.value.detectorMode == mode
    ensures r.Ok? ==> (r.value.multipleObjectsEnabled <==> EnabledByDefault(store, prefKeyForMultipleObjects))
    ensures r.Ok? ==> (r.value.classificationEnabled <==> EnabledByDefault(store, prefKeyForClassification))
  {
    var enableMultipleObjects :- GetBoolean(store, prefKeyForMultipleObjects, true);
    var enableClassification :- GetBoolean(store, prefKeyForClassification, true);
    Ok(ObjectDetectorOptions(mode, enableMultipleObjects, enableClassification))
  }

  /** `getCustomObjectDetectorOptions`: as the plain options, plus the model
      passed through and a label cap of one exactly when classification is on. */
  function GetCustomObjectDetectorOptions<M>(
    store: Store, localModel: M, prefKeyForMultipleObjects: string, prefKeyForClassification: string, mode: Int32
  ): (r: Result<CustomObjectDetectorOptions<M>, JavaException>)
    ensures r.Ok? <==> ReadableAsBoolean(store, prefKeyForMultipleObjects) && ReadableAsBoolean(store, prefKeyForClassification)
    ensures r.Err? ==> r.error == ClassCastException
    ensures r.Ok? ==> r.value.localModel == localModel && r.value.detectorMode == mode
    ensures r.Ok? ==> (r.value.multipleObjectsEnabled <==> EnabledByDefault(store, prefKeyForMultipleObjects))
    ensures r.Ok? ==> (r.value.classificationEnabled <==> EnabledByDefault(store, prefKeyForClassification))
    ensures r.Ok? ==> r.value.maxPerObjectLabelCount == (if r.value.classificationEnabled then Some(1) else None)
  {
    var enableMultipleObjects :- GetBoolean(store, prefKeyForMultipleObjects, true);
    var enableClassification :- GetBoolean(store, prefKeyForClassification, true);
    Ok(CustomObjectDetectorOptions(
      localModel, mode, enableMultipleObjects, enableClassification,
      if enableClassification then Some(1) else None))
  }

  /** `getModeTypePreferenceValue`: the stored string parsed as an `int`, or
      the default when the key is absent (the default goes through
      `String.valueOf` and back, which gives the default again). A stored
      string that is not an `int` is an error, not the default. */
  function GetModeTypePreferenceValue(store: Store, prefKey: string, defaultValue: Int32): (r: Result<Int32, JavaException>)
    ensures prefKey !in store ==> r == Ok(defaultValue)
    ensures prefKey in store ==>
      r == match store[prefKey] case StringValue(s) => ParseInt(s) case BoolValue(_) => Err(ClassCastException)
  {
    ParseIntOfValueOf(defaultValue);
    var text :- GetString(store, prefKey, Some(IntToString(defaultValue)));
    assert text.Some?;
    ParseInt(text.value)
  }

  /** `Float.parseFloat(text)`, where `parsesAsFloat` says which texts it
      accepts; null throws NullPointerException. */
  function ParseMinFaceSize(text: Option<string>, parsesAsFloat: string -> bool): (r: Result<string, JavaException>)
    ensures r.Ok? <==> text.Some? && parsesAsFloat(text.value)
    ensures r.Ok? ==> r.value == text.value
  {
    match text
    case None => Err(NullPointerException)
    case Some(t) => if parsesAsFloat(t) then Ok(t) else Err(NumberFormatException)
  }

  /** `getFaceDetectorOptions`: the four modes, the tracking flag (default
      true) and the minimum face size (default "0.1"), read in that order;
      the first read that throws decides the error. */
  function GetFaceDetectorOptions(store: Store, defaults: FaceModeDefaults, parsesAsFloat: string -> bool): (r: Result<FaceDetectorOptions, JavaException>)
    ensures r.Ok? <==>
      GetModeTypePreferenceValue(store, PrefKeyLandmarkMode, defaults.landmarkModeAll).Ok? &&
      GetModeTypePreferenceValue(store, PrefKeyContourMode, defaults.contourModeAll).Ok? &&
      GetModeTypePreferenceValue(store, PrefKeyClassificationMode, defaults.classificationModeAll).Ok? &&
      GetModeTypePreferenceValue(store, PrefKeyPerformanceMode, defaults.performanceModeFast).Ok? &&
      ReadableAsBoolean(store, PrefKeyFaceTracking) &&
      (PrefKeyMinFaceSize in store ==> store[PrefKeyMinFaceSize].StringValue? && parsesAsFloat(store[PrefKeyMinFaceSize].s)) &&
      (PrefKeyMinFaceSize !in store ==> parsesAsFloat(DefaultMinFaceSize))
    ensures r.Ok? ==>
      r.value.landmarkMode == GetModeTypePreferenceValue(store, PrefKeyLandmarkMode, defaults.landmarkModeAll).value &&
      r.value.contourMode == GetModeTypePreferenceValue(store, PrefKeyContourMode, defaults.contourModeAll).value &&
      r.value.classificationMode == GetModeTypePreferenceValue(store, PrefKeyClassificationMode, defaults.classificationModeAll).value &&
      r.value.performanceMode == GetModeTypePreferenceValue(store, PrefKeyPerformanceMode, defaults.performanceModeFast).value
    ensures r.Ok? ==> (r.value.trackingEnabled <==> EnabledByDefault(store, PrefKeyFaceTracking))
    ensures r.Ok? ==> r.value.minFaceSize == if PrefKeyMinFaceSize in store then store[PrefKeyMinFaceSize].s else DefaultMinFaceSize
  {
    var landmarkMode :- GetModeTypePreferenceValue(store, PrefKeyLandmarkMode, defaults.landmarkModeAll);
    var contourMode :- GetModeTypePreferenceValue(store, PrefKeyContourMode, defaults.contourModeAll);
    var classificationMode :- GetModeTypePreferenceValue(store, PrefKeyClassificationMode, defaults.classificationModeAll);
    var performanceMode :- GetModeTypePreferenceValue(store, PrefKeyPerformanceMode, defaults.performanceModeFast);
    var enableFaceTracking :- GetBoolean(store, PrefKeyFaceTracking, true);
    var minFaceSizeText :- GetString(store, PrefKeyMinFaceSize, Some(DefaultMinFaceSize));
    var minFaceSize :- ParseMinFaceSize(minFaceSizeText, parsesAsFloat);
    Ok(FaceDetectorOptions(landmarkMode, contourMode, classificationMode, performanceMode, minFaceSize, enableFaceTracking))
  }
}
