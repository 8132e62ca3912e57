/**
 * Photo attendance (`src/components/attendance/PhotoAttendance.jsx`): a punch
 * needs a photo and a location, a location farther than 100 metres from the
 * office needs a remote-work request with a reason, and punches alternate
 * between "in" and "out". The camera, the geolocation service, the distance
 * formula and the browser's storage are outside the model: their results are
 * parameters.
 */
module PhotoAttendanceUi {
  import opened Common

  /** `MAX_DISTANCE_METERS`. */
  const MaxDistanceMeters: real := 100.0

  datatype Location = Location(latitude: real, longitude: real, accuracy: real)

  /** Why a punch was refused, one alert each, in the order they are checked. */
  datatype Refusal = NoPhoto | NoLocation | TooFar(distance: real) | NoReason

  /** `distance > MAX_DISTANCE_METERS`, where a missing distance compares as not greater. */
  predicate Far(distance: Option<real>) {
    distance.Some? && distance.value > MaxDistanceMeters
  }

  /**
   * The guard chain of `handlePunch`: no photo, then no location, then too
   * far without a remote request, then a remote request whose reason is
   * blank once trimmed.
   */
  function PunchCheck(photo: Option<string>, location: Option<Location>, distance: Option<real>,
                      remoteWorkRequested: bool, remoteReason: string): (r: Option<Refusal>)
    ensures r == Some(NoPhoto) <==> photo.None?
    ensures r == Some(NoLocation) <==> photo.Some? && location.None?
    ensures r.Some? && r.value.TooFar? <==> photo.Some? && location.Some? && Far(distance) && !remoteWorkRequested
    ensures r == Some(NoReason) <==> photo.Some? && location.Some? && !(Far(distance) && !remoteWorkRequested)
                                      && remoteWorkRequested && AllSpace(remoteReason, JavaScript)
    ensures r.None? <==> photo.Some? && location.Some? && (remoteWorkRequested || !Far(distance))
                         && (remoteWorkRequested ==> !AllSpace(remoteReason, JavaScript))
  {
    TrimShape(remoteReason, JavaScript);
    if photo.None? then Some(NoPhoto)
    else if location.None? then Some(NoLocation)
    else if Far(distance) && !remoteWorkRequested then Some(TooFar(distance.value))
    else if remoteWorkRequested && Trim(remoteReason, JavaScript) == "" then Some(NoReason)
    else None
  }

  /** `nextPunchType`: "out" right after an "in", and "in" otherwise (nothing stored, or anything else stored). */
  function NextPunchType(lastPunchType: Option<string>): (t: string)
    ensures t == "out" <==> lastPunchType == Some("in")
    ensures t == "in" <==> lastPunchType != Some("in")
  {
    if lastPunchType == Some("in") then "out" else "in"
  }

  /** Two punches in a row are of opposite kinds, and a third is like the first. */
  lemma PunchesAlternate(lastPunchType: Option<string>)
    ensures NextPunchType(Some(NextPunchType(lastPunchType))) != NextPunchType(lastPunchType)
    ensures NextPunchType(Some(NextPunchType(Some(NextPunchType(lastPunchType))))) == NextPunchType(lastPunchType)
  {
  }

  /** The popup after a successful punch. */
  function SuccessMessage(punchType: string, remoteWorkRequested: bool): string {
    "Successfully punched " + punchType + "! " + (if remoteWorkRequested then "(Remote approval pending)" else "")
  }

  /** The page state. */
  class PhotoAttendance {
    var capturedPhoto: Option<string>
    var location: Option<Location>
    var locationError: string
    var distance: Option<real>
    var remoteWorkRequested: bool
    var remoteReason: string
    var lastPunchType: Option<string>
    var isLoading: bool
    var showPopup: bool
    var popupMessage: string

    /** The page as it starts, with whatever punch type the browser stored last. */
    constructor(stored: Option<string>)
      ensures capturedPhoto.None? && location.None? && distance.None? && !remoteWorkRequested && remoteReason == ""
      ensures lastPunchType == stored && !isLoading && !showPopup && locationError == ""
    {
      capturedPhoto := None;
      location := None;
      locationError := "";
      distance := None;
      remoteWorkRequested := false;
      remoteReason := "";
      lastPunchType := stored;
      isLoading := false;
      showPopup := false;
      popupMessage := "";
    }

    /** `capturePhoto`: the camera's picture becomes the captured photo. */
    method Capture(photo: string)
      modifies this
      ensures capturedPhoto == Some(photo)
      ensures location == old(location) && distance == old(distance) && lastPunchType == old(lastPunchType)
      ensures remoteWorkRequested == old(remoteWorkRequested) && remoteReason == old(remoteReason)
      ensures locationError == old(locationError) && isLoading == old(isLoading)
      ensures showPopup == old(showPopup) && popupMessage == old(popupMessage)
    {
      capturedPhoto := Some(photo);
    }

    /** `retakePhoto`: the captured photo is dropped. */
    method Retake()
      modifies this
      ensures capturedPhoto.None?
      ensures location == old(location) && distance == old(distance) && lastPunchType == old(lastPunchType)
      ensures remoteWorkRequested == old(remoteWorkRequested) && remoteReason == old(remoteReason)
      ensures locationError == old(locationError) && isLoading == old(isLoading)
      ensures showPopup == old(showPopup) && popupMessage == old(popupMessage)
    {
      capturedPhoto := None;
    }

    /**
     * `getLocation` when the position arrives, with `dist` its distance from
     * the office: the location and distance are stored, and a distance above
     * 100 metres ticks the remote-work request (a nearer one leaves it as it was).
     */
    method LocationFound(position: Location, dist: real)
      modifies this
      ensures location == Some(position) && distance == Some(dist) && locationError == ""
      ensures remoteWorkRequested == (old(remoteWorkRequested) || dist > MaxDistanceMeters)
      ensures capturedPhoto == old(capturedPhoto) && remoteReason == old(remoteReason) && lastPunchType == old(lastPunchType)
      ensures isLoading == old(isLoading) && showPopup == old(showPopup) && popupMessage == old(popupMessage)
    {
      locationError := "";
      location := Some(position);
      distance := Some(dist);
      if dist > MaxDistanceMeters {
        remoteWorkRequested := true;
      }
    }

    /** `getLocation` without a position: the error is shown and nothing else changes. */
    method LocationFailed(geolocationSupported: bool)
      modifies this
      ensures locationError == (if geolocationSupported then "Unable to get location. Please enable GPS."
                                else "Geolocation is not supported by your browser")
      ensures location == old(location) && distance == old(distance) && remoteWorkRequested == old(remoteWorkRequested)
      ensures capturedPhoto == old(capturedPhoto) && remoteReason == old(remoteReason) && lastPunchType == old(lastPunchType)
      ensures isLoading == old(isLoading) && showPopup == old(showPopup) && popupMessage == old(popupMessage)
    {
      if geolocationSupported {
        locationError := "Unable to get location. Please enable GPS.";
      } else {
        locationError := "Geolocation is not supported by your browser";
      }
    }

    /** The remote-work checkbox. */
    method SetRemoteWorkRequested(checked: bool)
      modifies this
      ensures remoteWorkRequested == checked
      ensures location == old(location) && distance == old(distance) && capturedPhoto == old(capturedPhoto)
      ensures remoteReason == old(remoteReason) && lastPunchType == old(lastPunchType)
      ensures locationError == old(locationError) && isLoading == old(isLoading)
      ensures showPopup == old(showPopup) && popupMessage == old(popupMessage)
    {
      remoteWorkRequested := checked;
    }

    /** The reason box. */
    method SetRemoteReason(reason: string)
      modifies this
      ensures remoteReason == reason
      ensures location == old(location) && distance == old(distance) && capturedPhoto == old(capturedPhoto)
      ensures remoteWorkRequested == old(remoteWorkRequested) && lastPunchType == old(lastPunchType)
      ensures locationError == old(locationError) && isLoading == old(isLoading)
      ensures showPopup == old(showPopup) && popupMessage == old(popupMessage)
    {
      remoteReason := reason;
    }

    /**
     * `handlePunch`: a refused punch changes nothing. An accepted one records
     * the next punch type as the last one, shows the success popup and
     * clears the photo, the location, the distance and the remote request.
     */
    method Punch() returns (refusal: Option<Refusal>, punchType: string)
      modifies this
      ensures refusal == PunchCheck(old(capturedPhoto), old(location), old(distance), old(remoteWorkRequested), old(remoteReason))
      ensures refusal.Some? ==>
                capturedPhoto == old(capturedPhoto) && location == old(location) && distance == old(distance)
                && remoteWorkRequested == old(remoteWorkRequested) && remoteReason == old(remoteReason)
                && lastPunchType == old(lastPunchType) && showPopup == old(showPopup) && isLoading == old(isLoading)
                && popupMessage == old(popupMessage)
      ensures refusal.None? ==>
                punchType == NextPunchType(old(lastPunchType)) && lastPunchType == Some(punchType)
                && showPopup && popupMessage == SuccessMessage(punchType, old(remoteWorkRequested))
                && capturedPhoto.None? && location.None? && distance.None? && !remoteWorkRequested && remoteReason == ""
                && !isLoading
      ensures locationError == old(locationError)
    {
      refusal := PunchCheck(capturedPhoto, location, distance, remoteWorkRequested, remoteReason);
      punchType := NextPunchType(lastPunchType);
      if refusal.Some? {
        return;
      }
      isLoading := true;
      lastPunchType := Some(punchType);
      popupMessage := SuccessMessage(punchType, remoteWorkRequested);
      showPopup := true;
      capturedPhoto := None;
      location := None;
      distance := None;
      remoteWorkRequested := false;
      remoteReason := "";
      isLoading := false;
    }

    /** The popup's timer running out. */
    method HidePopup()
      modifies this
      ensures !showPopup
      ensures capturedPhoto == old(capturedPhoto) && location == old(location) && lastPunchType == old(lastPunchType)
      ensures locationError == old(locationError) && distance == old(distance)
      ensures remoteWorkRequested == old(remoteWorkRequested) && remoteReason == old(remoteReason)
      ensures isLoading == old(isLoading) && popupMessage == old(popupMessage)
    {
      showPopup := false;
    }
  }

  /** Right after a punch the page asks for a new photo before anything else. */
  lemma PunchNeedsFreshPhoto(location: Option<Location>, distance: Option<real>, remote: bool, reason: string)
    ensures PunchCheck(None, location, distance, remote, reason) == Some(NoPhoto)
  {
  }

  /** Within 100 metres a punch with a photo and a location goes through without a remote request. */
  lemma NearNeedsNoRemote(photo: string, position: Location, dist: real, reason: string)
    requires dist <= MaxDistanceMeters
    ensures PunchCheck(Some(photo), Some(position), Some(dist), false, reason).None?
  {
  }

  /** Exactly 100 metres is still near: the threshold is strict. */
  lemma ThresholdIsStrict(photo: string, position: Location, reason: string)
    ensures PunchCheck(Some(photo), Some(position), Some(MaxDistanceMeters), false, reason).None?
    ensures PunchCheck(Some(photo), Some(position), Some(MaxDistanceMeters + 0.01), false, reason)
            == Some(TooFar(MaxDistanceMeters + 0.01))
  {
  }
}
