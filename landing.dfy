/** The landing page's lead form: four text fields and the submit handler
    that appends a record to the shared store. */
module Landing {
  import opened Store

  datatype FormData = FormData(fullName: string, telegram: string, email: string, message: string)

  /** What the form holds when the page opens and after every submit. */
  const EmptyForm := FormData("", "", "", "")

  class LandingPage {
    var formData: FormData
    const storage: LocalStorage

    constructor (storage: LocalStorage)
      ensures this.storage == storage
      ensures formData == EmptyForm
    {
      this.storage := storage;
      formData := EmptyForm;
    }

    /** Submit: read the stored list (an absent key as empty), push one record
        built from the form and the clock, write the list back, reset the form.
        `isoNow` stands for `new Date().toISOString()` and `now` for
        `Date.now()`. Whether some stored record already has id `now` is not
        looked at. */
    method HandleSubmit(isoNow: string, now: int)
      modifies this, storage
      ensures storage.applications.Some?
      ensures var before := StoredOrEmpty(old(storage.applications));
              var after := storage.applications.value;
              |after| == |before| + 1 &&
              after[..|before|] == before &&
              after[|before|] == Application(now, old(formData).fullName, old(formData).telegram,
                                             old(formData).email, old(formData).message, isoNow)
      ensures old(storage.applications).None? ==>
                storage.applications == Some([Application(now, old(formData).fullName, old(formData).telegram,
                                                           old(formData).email, old(formData).message, isoNow)])
      ensures formData == EmptyForm
    {
      var applications := StoredOrEmpty(storage.applications);
      applications := applications + [Application(now, formData.fullName, formData.telegram,
                                                   formData.email, formData.message, isoNow)];
      storage.applications := Some(applications);
      formData := EmptyForm;
    }
  }
}
