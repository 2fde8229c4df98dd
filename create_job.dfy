/**
 * The create-job screen's logic: the three required fields, the photo
 * buffer with its cap of three, removal by index, and the job record built
 * when the form is submitted.
 */
module CreateJob {
  import opened Types

  datatype JobForm = JobForm(
    description: string,
    address: string,
    preferredDate: string,
    preferredTime: string)

  const EmptyJobForm: JobForm := JobForm("", "", "", "")

  datatype JobFormField = DescriptionField | AddressField | PreferredDateField | PreferredTimeField

  function JobFieldValue(form: JobForm, f: JobFormField): string {
    match f
    case DescriptionField => form.description
    case AddressField => form.address
    case PreferredDateField => form.preferredDate
    case PreferredTimeField => form.preferredTime
  }

  /** `updateFormData`: the named field takes the new value, the others keep theirs. */
  function UpdateJobForm(form: JobForm, f: JobFormField, value: string): (r: JobForm)
    ensures JobFieldValue(r, f) == value
    ensures forall g :: g != f ==> JobFieldValue(r, g) == JobFieldValue(form, g)
  {
    match f
    case DescriptionField => form.(description := value)
    case AddressField => form.(address := value)
    case PreferredDateField => form.(preferredDate := value)
    case PreferredTimeField => form.(preferredTime := value)
  }

  /** The keys the job-form validation can report, with the names the error map uses. */
  datatype JobFormKey = DescriptionKey | AddressKey | PreferredDateKey {
    function KeyName(): string {
      match this
      case DescriptionKey => "description"
      case AddressKey => "address"
      case PreferredDateKey => "preferredDate"
    }
  }

  /** A draft the form accepts; the preferred time is never looked at. */
  predicate JobFormAcceptable(form: JobForm) {
    form.description != "" && form.address != "" && form.preferredDate != ""
  }

  /** `validateForm`: one entry per empty required field; valid iff the map is empty. */
  method ValidateJobForm(form: JobForm) returns (errors: map<JobFormKey, string>, valid: bool)
    ensures (DescriptionKey in errors) == (form.description == "")
    ensures DescriptionKey in errors ==> errors[DescriptionKey] == "Description is required"
    ensures (AddressKey in errors) == (form.address == "")
    ensures AddressKey in errors ==> errors[AddressKey] == "Address is required"
    ensures (PreferredDateKey in errors) == (form.preferredDate == "")
    ensures PreferredDateKey in errors ==> errors[PreferredDateKey] == "Preferred date is required"
    ensures valid <==> errors == map[]
    ensures valid <==> JobFormAcceptable(form)
  {
    errors := map[];
    if form.description == "" {
      errors := errors[DescriptionKey := "Description is required"];
    }
    if form.address == "" {
      errors := errors[AddressKey := "Address is required"];
    }
    if form.preferredDate == "" {
      errors := errors[PreferredDateKey := "Preferred date is required"];
    }
    valid := |errors| == 0;
    if !valid {
      assert errors.Keys != {};
    }
  }

  /** The preferred time is not validated: changing it never changes the verdict. */
  lemma PreferredTimeIgnored(form: JobForm, time: string)
    ensures JobFormAcceptable(form.(preferredTime := time)) == JobFormAcceptable(form)
  {
  }

  const MaxPhotos: nat := 3

  /**
   * The photo list after one `pickImage`: at the cap nothing happens (the
   * picker is not even opened); otherwise the picked URI, if the permission
   * was granted and the user chose an image, is appended.
   */
  function AfterPick(photos: seq<string>, picked: Option<string>): seq<string> {
    if |photos| >= MaxPhotos then photos
    else match picked
      case None => photos
      case Some(uri) => photos + [uri]
  }

  lemma PickRespectsCap(photos: seq<string>, picked: Option<string>)
    ensures |photos| >= MaxPhotos ==> AfterPick(photos, picked) == photos
    ensures |photos| < MaxPhotos && picked.Some? ==> AfterPick(photos, picked) == photos + [picked.value]
    ensures picked.None? ==> AfterPick(photos, picked) == photos
    ensures |photos| <= MaxPhotos ==> |AfterPick(photos, picked)| <= MaxPhotos
    ensures AfterPick(photos, picked)[..|photos|] == photos
  {
  }

  /** Any run of picks from at most three photos stays at most three. */
  function AfterPicks(photos: seq<string>, picks: seq<Option<string>>): seq<string>
    decreases |picks|
  {
    if picks == [] then photos else AfterPicks(AfterPick(photos, picks[0]), picks[1..])
  }

  lemma {:induction false} PicksRespectCap(photos: seq<string>, picks: seq<Option<string>>)
    requires |photos| <= MaxPhotos
    ensures |photos| <= |AfterPicks(photos, picks)| <= MaxPhotos
    ensures AfterPicks(photos, picks)[..|photos|] == photos
    decreases |picks|
  {
    if picks != [] {
      PickRespectsCap(photos, picks[0]);
      var next := AfterPick(photos, picks[0]);
      PicksRespectCap(next, picks[1..]);
      var all := AfterPicks(photos, picks);
      assert all == AfterPicks(next, picks[1..]);
      assert all[..|next|] == next;
      assert all[..|photos|] == next[..|photos|];
    }
  }

  /** `prev.filter((_, i) => i !== index)`: keep every element whose position is not `index`. */
  function RemoveAt(photos: seq<string>, index: int): (r: seq<string>)
    ensures |r| <= |photos|
  {
    if photos == [] then []
    else (if index == 0 then [] else [photos[0]]) + RemoveAt(photos[1..], index - 1)
  }

  /** Removal deletes exactly position `index` and keeps the rest in order;
      an index outside the list changes nothing. */
  lemma {:induction false} RemoveAtEffect(photos: seq<string>, index: int)
    ensures 0 <= index < |photos| ==> RemoveAt(photos, index) == photos[..index] + photos[index + 1..]
    ensures !(0 <= index < |photos|) ==> RemoveAt(photos, index) == photos
  {
    if photos != [] {
      RemoveAtEffect(photos[1..], index - 1);
      if index == 0 {
        assert photos[..0] + photos[1..] == photos[1..];
      } else if 0 < index < |photos| {
        assert photos[1..][..index - 1] + photos[1..][index..] == photos[1..index] + photos[index + 1..];
        assert photos[..index] == [photos[0]] + photos[1..index];
      } else {
        assert photos == [photos[0]] + photos[1..];
      }
    }
  }

  /** The photo buffer of the screen. */
  class PhotoBuffer {
    var photos: seq<string>

    ghost predicate Valid()
      reads this
    {
      |photos| <= MaxPhotos
    }

    constructor ()
      ensures Valid() && photos == []
    {
      photos := [];
    }

    /** `pickImage`, with the permission and picker outcome as `picked`. */
    method PickImage(picked: Option<string>) returns (added: bool)
      requires Valid()
      modifies this
      ensures Valid()
      ensures photos == AfterPick(old(photos), picked)
      ensures added <==> |photos| == |old(photos)| + 1
    {
      if |photos| >= MaxPhotos {
        return false;
      }
      match picked
      case None =>
        added := false;
      case Some(uri) =>
        photos := photos + [uri];
        added := true;
    }

    method RemovePhoto(index: int)
      requires Valid()
      modifies this
      ensures Valid()
      ensures photos == RemoveAt(old(photos), index)
    {
      photos := RemoveAt(photos, index);
    }
  }

  /** The job record `handleCreateJob` builds; id, clock and date parsing come from outside. */
  function NewJob(form: JobForm, photos: seq<string>, category: Option<ServiceCategory>,
                  id: string, now: Timestamp, preferredDate: Timestamp): Job
  {
    Job(id, "1", None,
        match category case Some(c) => c case None => HVAC,
        form.description, photos, form.address, preferredDate,
        Pending, None, now, now, None, None, None)
  }

  /** `handleCreateJob`: no job when validation fails; otherwise a pending,
      unassigned job in the route's category (HVAC when none was given),
      carrying the form's description, address and the photos. */
  method SubmitJob(form: JobForm, photos: seq<string>, category: Option<ServiceCategory>,
                   id: string, now: Timestamp, preferredDate: Timestamp)
    returns (errors: map<JobFormKey, string>, job: Option<Job>)
    ensures job.Some? <==> JobFormAcceptable(form)
    ensures job.Some? <==> errors == map[]
    ensures job.Some? ==>
      && job.value.status == Pending && job.value.professionalId == None
      && job.value.serviceCategory == (if category.Some? then category.value else HVAC)
      && job.value.description == form.description && job.value.address == form.address
      && job.value.photos == photos && job.value.id == id && job.value.customerId == "1"
      && job.value.preferredDate == preferredDate
      && job.value.createdAt == now && job.value.updatedAt == now
      && job.value.finalPrice == None && job.value.completedAt == None
      && job.value.rating == None && job.value.review == None
  {
    var valid;
    errors, valid := ValidateJobForm(form);
    if !valid {
      return errors, None;
    }
    job := Some(NewJob(form, photos, category, id, now, preferredDate));
  }
}
