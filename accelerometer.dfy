/**
  The accelerometer hook: the latest motion and orientation readings, the
  sensor permission with its error text, and shake detection from successive
  motion events. Event listeners and the clock are outside the model: each
  event handler is a method, and the current time is passed in.
 */
module Accelerometer {
  import opened Wrappers

  datatype Permission = Granted | Denied | Prompt

  /** `AccelerometerData`: every reading may be missing (`null`). */
  datatype AccelerometerData = AccelerometerData(
    x: Option<real>, y: Option<real>, z: Option<real>,
    alpha: Option<real>, beta: Option<real>, gamma: Option<real>)

  const NoReadings := AccelerometerData(None, None, None, None, None, None)

  /** `accelerationIncludingGravity` of a motion event; each axis may be `null`. */
  datatype Acceleration = Acceleration(x: Option<real>, y: Option<real>, z: Option<real>)

  /** How the platform answers a permission request. */
  datatype PermissionApi =
    | NoRequestApi                 // `DeviceMotionEvent.requestPermission` is not a function
    | Responds(response: string)   // the request resolved with this answer
    | Throws(message: string)      // the request failed with this message

  /** The minimum time between two compared readings, in milliseconds. */
  const ShakeInterval: int := 100
  const DefaultShakeThreshold: real := 15.0
  const DeniedError := "Permiso denegado para acceder al acelerómetro"
  const RequestErrorPrefix := "Error al solicitar permiso: "

  /** `v || 0`: a missing axis reads as zero. */
  function AxisValue(v: Option<real>): (r: real)
    ensures v.None? ==> r == 0.0
    ensures v.Some? ==> r == v.value
  {
    v.GetOr(0.0)
  }

  /** `shakeThreshold || 15`: an absent or zero threshold falls back to 15. */
  function Threshold(shakeThreshold: Option<real>): (t: real)
    ensures shakeThreshold.Some? && shakeThreshold.value != 0.0 ==> t == shakeThreshold.value
    ensures shakeThreshold.None? || shakeThreshold.value == 0.0 ==> t == DefaultShakeThreshold
  {
    if shakeThreshold.Some? && shakeThreshold.value != 0.0 then shakeThreshold.value else DefaultShakeThreshold
  }

  function Abs(r: real): real {
    if r < 0.0 then -r else r
  }

  /** Some axis moved strictly more than the threshold. */
  predicate Exceeds(dx: real, dy: real, dz: real, threshold: real) {
    Abs(dx) > threshold || Abs(dy) > threshold || Abs(dz) > threshold
  }

  /** The hook's state: React state (`data`, `permission`, `error`) and the shake-tracking refs. */
  class MotionSensor {
    const hasOnShake: bool               // an `onShake` callback was given
    const shakeThreshold: Option<real>   // the `shakeThreshold` option
    const hasDeviceMotion: bool
    const hasDeviceOrientation: bool

    var data: AccelerometerData
    var permission: Permission
    var error: Option<string>
    var lastX: real
    var lastY: real
    var lastZ: real
    var lastTime: int

    constructor (hasOnShake: bool, shakeThreshold: Option<real>, hasDeviceMotion: bool, hasDeviceOrientation: bool)
      ensures this.hasOnShake == hasOnShake && this.shakeThreshold == shakeThreshold
      ensures this.hasDeviceMotion == hasDeviceMotion && this.hasDeviceOrientation == hasDeviceOrientation
      ensures data == NoReadings && permission == Prompt && error == None
      ensures lastX == 0.0 && lastY == 0.0 && lastZ == 0.0 && lastTime == 0
    {
      this.hasOnShake := hasOnShake;
      this.shakeThreshold := shakeThreshold;
      this.hasDeviceMotion := hasDeviceMotion;
      this.hasDeviceOrientation := hasDeviceOrientation;
      data := NoReadings;
      permission := Prompt;
      error := None;
      lastX, lastY, lastZ, lastTime := 0.0, 0.0, 0.0, 0;
    }

    /** `isSupported`: either kind of device event exists. */
    predicate IsSupported()
      reads this
    {
      hasDeviceMotion || hasDeviceOrientation
    }

    /**
      handleMotion at time `now`: records x/y/z; `shook` tells whether onShake
      fired. The first event only records the baseline and the time; later ones
      compare with the baseline when more than 100 ms have passed, and always
      move the time on.
     */
    method HandleMotion(acc: Option<Acceleration>, now: int) returns (shook: bool)
      modifies this
      ensures acc.None? ==> !shook && unchanged(this)
      ensures acc.Some? ==>
        var cx, cy, cz := AxisValue(acc.value.x), AxisValue(acc.value.y), AxisValue(acc.value.z);
        && data == old(data).(x := Some(cx), y := Some(cy), z := Some(cz))
        && (shook <==> hasOnShake && old(lastTime) > 0 && now - old(lastTime) > ShakeInterval
                       && Exceeds(cx - old(lastX), cy - old(lastY), cz - old(lastZ), Threshold(shakeThreshold)))
        && (if (hasOnShake && old(lastTime) > 0 && now - old(lastTime) > ShakeInterval) || old(lastTime) == 0
            then lastX == cx && lastY == cy && lastZ == cz
            else lastX == old(lastX) && lastY == old(lastY) && lastZ == old(lastZ))
        && lastTime == (if (hasOnShake && old(lastTime) > 0) || old(lastTime) == 0 then now else old(lastTime))
      ensures permission == old(permission) && error == old(error)
    {
      shook := false;
      if acc.None? {
        return;
      }
      var currentX := AxisValue(acc.value.x);
      var currentY := AxisValue(acc.value.y);
      var currentZ := AxisValue(acc.value.z);
      data := data.(x := Some(currentX), y := Some(currentY), z := Some(currentZ));
      if hasOnShake && lastTime > 0 {
        var currentTime := now;
        var timeDiff := currentTime - lastTime;
        if timeDiff > ShakeInterval {
          var deltaX := Abs(currentX - lastX);
          var deltaY := Abs(currentY - lastY);
          var deltaZ := Abs(currentZ - lastZ);
          var threshold := Threshold(shakeThreshold);
          if deltaX > threshold || deltaY > threshold || deltaZ > threshold {
            shook := true;
          }
          lastX, lastY, lastZ := currentX, currentY, currentZ;
        }
        lastTime := currentTime;
      } else if lastTime == 0 {
        lastTime := now;
        lastX, lastY, lastZ := currentX, currentY, currentZ;
      }
    }

    /** handleOrientation: records alpha/beta/gamma and leaves x/y/z as they were. */
    method HandleOrientation(alpha: Option<real>, beta: Option<real>, gamma: Option<real>)
      modifies this`data
      ensures data == old(data).(alpha := alpha, beta := beta, gamma := gamma)
    {
      data := data.(alpha := alpha, beta := beta, gamma := gamma);
    }

    /**
      requestPermission: granted (no error) when there is nothing to ask or the
      answer is 'granted'; denied with an error text for any other answer or a
      failed request.
     */
    method RequestPermission(api: PermissionApi) returns (granted: bool)
      modifies this`permission, this`error
      ensures granted <==> api.NoRequestApi? || api == Responds("granted")
      ensures permission == (if granted then Granted else Denied)
      ensures granted ==> error == None
      ensures api.Responds? && !granted ==> error == Some(DeniedError)
      ensures api.Throws? ==> error == Some(RequestErrorPrefix + api.message)
    {
      match api
      case Responds(response) =>
        if response == "granted" {
          permission := Granted;
          error := None;
          return true;
        } else {
          permission := Denied;
          error := Some(DeniedError);
          return false;
        }
      case NoRequestApi =>
        permission := Granted;
        error := None;
        return true;
      case Throws(message) =>
        error := Some(RequestErrorPrefix + message);
        permission := Denied;
        return false;
    }
  }

  /**
    Two motion events at most 100 ms apart never fire onShake: the first one
    always moves the time on to its own timestamp, also on a fresh sensor.
   */
  method CloseEventsNeverShake(sensor: MotionSensor, first: Acceleration, second: Acceleration, t1: int, t2: int)
    returns (shook: bool)
    requires sensor.hasOnShake && sensor.lastTime >= 0 && t1 > 0
    requires t2 - t1 <= ShakeInterval
    modifies sensor
    ensures !shook
  {
    var _ := sensor.HandleMotion(Some(first), t1);
    shook := sensor.HandleMotion(Some(second), t2);
  }
}
