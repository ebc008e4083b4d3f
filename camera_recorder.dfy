/** The camera as the input code sees it. Its implementation is not part of
    this model; a Camera here records, in order, every call it receives, so
    that what a caller did to it can be stated exactly. */
module CameraRecorder {

  /** Camera_Movement: the six directions a Move can take. */
  datatype CameraMovement = FORWARD | BACKWARD | LEFT | RIGHT | UP | DOWN

  /** One call received by the camera. */
  datatype CameraCall =
    | Move(direction: CameraMovement, deltaTime: real)
    | SetBoost(enabled: bool)
    | ProcessMouseMovement(xOffset: real, yOffset: real)
    | ProcessMouseScroll(yOffset: real)

  class Camera {
    /** Every call received so far, oldest first. */
    var trace: seq<CameraCall>

    constructor ()
      ensures trace == []
    {
      trace := [];
    }

    method Move(direction: CameraMovement, deltaTime: real)
      modifies this
      ensures trace == old(trace) + [CameraCall.Move(direction, deltaTime)]
    {
      trace := trace + [CameraCall.Move(direction, deltaTime)];
    }

    method SetBoost(enabled: bool)
      modifies this
      ensures trace == old(trace) + [CameraCall.SetBoost(enabled)]
    {
      trace := trace + [CameraCall.SetBoost(enabled)];
    }

    method ProcessMouseMovement(xOffset: real, yOffset: real)
      modifies this
      ensures trace == old(trace) + [CameraCall.ProcessMouseMovement(xOffset, yOffset)]
    {
      trace := trace + [CameraCall.ProcessMouseMovement(xOffset, yOffset)];
    }

    method ProcessMouseScroll(yOffset: real)
      modifies this
      ensures trace == old(trace) + [CameraCall.ProcessMouseScroll(yOffset)]
    {
      trace := trace + [CameraCall.ProcessMouseScroll(yOffset)];
    }
  }
}
