/** The admin page: its in-memory copy of the stored list and the handlers
    that reload, export, delete one id and clear everything. */
module Admin {
  import opened Store
  import opened Strings
  import opened CsvExport
  import Landing

  class AdminConsole {
    /** The list the page shows; it starts empty and is filled on mount. */
    var applications: seq<Application>
    const storage: LocalStorage

    /** Mounting the page: the state starts as `[]` and the mount effect
        loads the stored list at once. */
    constructor (storage: LocalStorage)
      ensures this.storage == storage
      ensures applications == StoredOrEmpty(storage.applications)
    {
      this.storage := storage;
      applications := [];
      new;
      LoadApplications();
    }

    /** An absent key shows as an empty list; storage is only read. */
    method LoadApplications()
      modifies this`applications
      ensures applications == StoredOrEmpty(storage.applications)
    {
      applications := StoredOrEmpty(storage.applications);
    }

    /** The export click, on the list the page shows. `localize` stands for
        the locale formatting of a timestamp, `isoNow` for the current time in
        ISO-8601. Nothing is changed. */
    method ExportToCsv(localize: string -> string, isoNow: string) returns (out: ExportOutcome)
      ensures out == Export(applications, localize, isoNow)
      ensures out.NothingToExport? <==> applications == []
    {
      out := Export(applications, localize, isoNow);
    }

    /** Filters the SHOWN list (not a fresh read of storage), writes the
        result under the key and shows it. */
    method DeleteApplication(id: int)
      modifies this`applications, storage
      ensures applications == WithoutId(old(applications), id)
      ensures storage.applications == Some(applications)
    {
      var updated := WithoutId(applications, id);
      storage.applications := Some(updated);
      applications := updated;
    }

    /** `confirmed` is the answer to the confirmation dialog: yes empties both
        the key and the shown list, no leaves everything as it was. */
    method ClearAll(confirmed: bool)
      modifies this`applications, storage
      ensures confirmed ==> applications == [] && storage.applications == Some([])
      ensures !confirmed ==> applications == old(applications) && storage.applications == old(storage.applications)
    {
      if confirmed {
        storage.applications := Some([]);
        applications := [];
      }
    }
  }

  const TelegramSite: string := "https://t.me/"

  /** The address behind a record's Telegram cell: the handle with its first
      `@` dropped, after `https://t.me/`. */
  function TelegramLink(telegram: string): (url: string)
    ensures TelegramSite <= url
    ensures '@' !in telegram ==> url[|TelegramSite|..] == telegram
    ensures '@' in telegram ==> |url| == |TelegramSite| + |telegram| - 1
    ensures '@' in telegram ==>
              exists k :: 0 <= k < |telegram| && telegram[k] == '@' && '@' !in telegram[..k] &&
                          url[|TelegramSite|..] == telegram[..k] + telegram[k + 1..]
  {
    TelegramSite + RemoveFirst(telegram, '@')
  }

  /** A handle typed with or without its leading `@` links to the same place. */
  lemma TelegramLinkIgnoresLeadingAt(handle: string)
    requires '@' !in handle
    ensures TelegramLink("@" + handle) == TelegramLink(handle)
  {
  }

  /** Only the first `@` goes: a second one stays in the link. */
  lemma TelegramLinkKeepsLaterAt(handle: string)
    requires '@' !in handle
    ensures TelegramLink("@@" + handle) == TelegramSite + "@" + handle
  {
  }

  /** The store's life cycle seen by both pages: an empty store, one
      submission, the admin page's load, a delete of that id, a reload. */
  method SubmitThenDelete()
  {
    var storage := new LocalStorage(None);
    var page := new Landing.LandingPage(storage);
    page.formData := Landing.FormData("Иван Иванов", "@ivan", "ivan@example.com", "");
    page.HandleSubmit("2024-05-01T10:00:00.000Z", 1714557600000);
    assert page.formData == Landing.EmptyForm;

    var admin := new AdminConsole(storage);
    var record := Application(1714557600000, "Иван Иванов", "@ivan", "ivan@example.com", "", "2024-05-01T10:00:00.000Z");
    assert admin.applications == [record];

    admin.DeleteApplication(1714557600000);
    assert admin.applications == [];
    admin.LoadApplications();
    assert admin.applications == [];

    var out := admin.ExportToCsv(ts => ts, "2024-05-01T10:00:00.000Z");
    assert out == NothingToExport;
  }
}
