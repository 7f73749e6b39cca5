/**
 * The AutoFill orchestrator: whether passwords may be stored for a site,
 * what to do with a submitted login form, and what to push back into a page
 * when it loads. The exception table, the password manager, the settings
 * store, the page and its script engine are outside; they appear as the
 * state and the parameters below.
 */
module AutoFill {
  import opened Wrappers
  import opened PasswordStore
  import opened Exceptions
  import opened ScriptEscaping

  /** What one form submission leads to, in place of the notification the browser shows. */
  datatype SaveOutcome =
    | NoOp
      // the stored entry with that username already has that password: only its last-used mark is refreshed
    | RefreshOnly(entry: PasswordEntry)
      // ask the user to save; `draft` is EmptyEntry for a new entry, otherwise the updated stored entry
    | Prompt(frameUrl: Url, formData: PageFormData, draft: PasswordEntry)

  /** The position of the first entry of `list` whose username is `username`, if any. */
  function FirstMatch(list: seq<PasswordEntry>, username: string): (r: Option<nat>)
    ensures r.Some? ==> r.value < |list| && list[r.value].username == username
    ensures r.Some? ==> forall j :: 0 <= j < r.value ==> list[j].username != username
    ensures r.None? <==> forall j :: 0 <= j < |list| ==> list[j].username != username
  {
    if list == [] then None
    else if list[0].username == username then Some(0)
    else
      match FirstMatch(list[1..], username)
      case None => None
      case Some(k) => Some(k + 1)
  }

  /** The stored entry `stored` with the submitted credentials and form data written over it. */
  function UpdateDraft(stored: PasswordEntry, form: PageFormData): (d: PasswordEntry)
    ensures d.host == stored.host
    ensures d.username == form.username && d.password == form.password && d.data == form.postData
  {
    stored.(username := form.username, password := form.password, data := form.postData)
  }

  /**
   * The decision `saveForm` takes, given whether its gate is open (not in
   * private browsing, a page present, storing enabled for the frame) and the
   * entries stored for the frame. An update draft may itself equal
   * EmptyEntry, so the draft alone does not tell a new entry from an update;
   * SaveNewUsername and SaveKnownUsername say which case applies.
   */
  function SaveDecision(gateOpen: bool, list: seq<PasswordEntry>, frameUrl: Url, form: PageFormData): (r: SaveOutcome)
    ensures r == NoOp <==> !gateOpen
    ensures r.RefreshOnly? ==>
              r.entry in list && r.entry.username == form.username && r.entry.password == form.password
    ensures r.Prompt? ==> r.frameUrl == frameUrl && r.formData == form
    ensures r.Prompt? && r.draft != EmptyEntry ==>
              r.draft.username == form.username && r.draft.password == form.password && r.draft.data == form.postData
  {
    if !gateOpen then NoOp
    else
      match FirstMatch(list, form.username)
      case None => Prompt(frameUrl, form, EmptyEntry)
      case Some(i) =>
        if list[i].password == form.password then RefreshOnly(list[i])
        else Prompt(frameUrl, form, UpdateDraft(list[i], form))
  }

  /** The stored entry whose last-used mark `saveForm` refreshes, if any. */
  function LastUsedRefresh(gateOpen: bool, list: seq<PasswordEntry>, username: string): (r: Option<PasswordEntry>)
    ensures !gateOpen ==> r == None
    ensures r.Some? ==> r.value in list && r.value.username == username
    ensures gateOpen ==> (r.None? <==> forall j :: 0 <= j < |list| ==> list[j].username != username)
  {
    if !gateOpen then None
    else
      match FirstMatch(list, username)
      case None => None
      case Some(i) => Some(list[i])
  }

  /** An unknown username leads to exactly one prompt, with an empty draft, and refreshes nothing. */
  lemma SaveNewUsername(list: seq<PasswordEntry>, frameUrl: Url, form: PageFormData)
    requires forall j :: 0 <= j < |list| ==> list[j].username != form.username
    ensures SaveDecision(true, list, frameUrl, form) == Prompt(frameUrl, form, EmptyEntry)
    ensures LastUsedRefresh(true, list, form.username) == None
  {
  }

  /**
   * Only the first entry with the submitted username matters. It is refreshed
   * whatever its password; an equal password ends there without a prompt; a
   * different one leads to a prompt whose draft is that entry with the
   * submitted username, password and form data.
   */
  lemma SaveKnownUsername(list: seq<PasswordEntry>, frameUrl: Url, form: PageFormData, i: nat)
    requires i < |list| && list[i].username == form.username
    requires forall j :: 0 <= j < i ==> list[j].username != form.username
    ensures LastUsedRefresh(true, list, form.username) == Some(list[i])
    ensures list[i].password == form.password ==> SaveDecision(true, list, frameUrl, form) == RefreshOnly(list[i])
    ensures list[i].password != form.password ==>
              SaveDecision(true, list, frameUrl, form) ==
              Prompt(frameUrl, form, list[i].(username := form.username, password := form.password, data := form.postData))
  {
  }

  /** Entries after the first match never change the decision. */
  lemma {:induction false} SaveIgnoresLaterEntries(list: seq<PasswordEntry>, tail: seq<PasswordEntry>, frameUrl: Url, form: PageFormData, i: nat)
    requires i < |list| && list[i].username == form.username
    ensures SaveDecision(true, list[..i + 1] + tail, frameUrl, form) == SaveDecision(true, list, frameUrl, form)
    ensures LastUsedRefresh(true, list[..i + 1] + tail, form.username) == LastUsedRefresh(true, list, form.username)
  {
    var k := FirstMatch(list, form.username).value;
    var l2 := list[..i + 1] + tail;
    assert k <= i;
    assert l2[k] == list[k];
    forall j | 0 <= j < k ensures l2[j].username != form.username {
      assert l2[j] == list[j];
    }
    SaveKnownUsername(list, frameUrl, form, k);
    SaveKnownUsername(l2, frameUrl, form, k);
  }

  /**
   * A worked run on host "x.com": a first submission of ("a", "p1") is
   * offered as new; once stored, the same pair only refreshes; ("a", "p2")
   * is offered as an update whose draft carries the submitted "p2".
   */
  lemma SaveScenario()
    ensures
      var u := Url("x.com", "https://x.com/login");
      var f1 := PageFormData("a", "p1", "user=a&pass=p1");
      var stored := PasswordEntry("x.com", "a", "p1", "user=a&pass=p1");
      var f2 := PageFormData("a", "p2", "user=a&pass=p2");
      SaveDecision(true, [], u, f1) == Prompt(u, f1, EmptyEntry) &&
      SaveDecision(true, [stored], u, f1) == RefreshOnly(stored) &&
      SaveDecision(true, [stored], u, f2) == Prompt(u, f2, PasswordEntry("x.com", "a", "p2", "user=a&pass=p2"))
  {
  }

  /**
   * The orchestrator. Its state is the storing flag loaded from the settings,
   * the exception table, and the password manager as seen from here: the
   * entries it returns and the write requests handed to it.
   */
  class AutoFill {
    /** How the password manager derives an entry's host from a URL. */
    const createHost: Url -> string
    /** The "save passwords on sites" setting. */
    var isStoring: bool
    /** Whether the exception query yields a row at all. */
    var exceptionsReadable: bool
    /** The `server` column of `autofill_exceptions`, in insertion order. */
    var exceptions: seq<string>
    /** Every entry the password manager holds, in its order. */
    var entries: seq<PasswordEntry>
    /** The write requests handed to the password manager, oldest first. */
    var managerCalls: seq<ManagerCall>

    /** Starts with storing off, then loads the setting (absent means on). */
    constructor (createHost: Url -> string, savedSetting: Option<bool>, exceptionsReadable: bool,
                 exceptions: seq<string>, entries: seq<PasswordEntry>)
      ensures this.createHost == createHost
      ensures isStoring == savedSetting.GetOr(true)
      ensures this.exceptionsReadable == exceptionsReadable
      ensures this.exceptions == exceptions && this.entries == entries && managerCalls == []
    {
      this.createHost := createHost;
      isStoring := false;
      this.exceptionsReadable := exceptionsReadable;
      this.exceptions := exceptions;
      this.entries := entries;
      managerCalls := [];
      new;
      LoadSettings(savedSetting);
    }

    /** Reloads the storing flag from the settings; an absent value means on. */
    method LoadSettings(savedSetting: Option<bool>)
      modifies this`isStoring
      ensures isStoring == savedSetting.GetOr(true)
    {
      isStoring := savedSetting.GetOr(true);
    }

    /** The row of the exception count query for `server`, if the query yields one. */
    function ExceptionQuery(server: string): (row: Option<nat>)
      reads this
      ensures row.Some? <==> exceptionsReadable
      ensures row.Some? ==> (row.value == 0 <==> server !in exceptions)
    {
      if !exceptionsReadable then None
      else
        CountZeroIff(exceptions, server);
        Some(CountOf(exceptions, server))
    }

    /** Storing is enabled for `u` when the flag is on and no exception names its server. */
    function IsStoringEnabled(u: Url): (r: bool)
      reads this
      ensures r <==> isStoring && exceptionsReadable && Server(u) !in exceptions
    {
      if !isStoring then false
      else
        match ExceptionQuery(Server(u))
        case None => false
        case Some(count) => count <= 0
    }

    /** The entries the password manager returns for `u`. */
    function GetFormData(u: Url): (r: seq<PasswordEntry>)
      reads this
      ensures forall e :: e in r <==> e in entries && e.host == createHost(u)
      ensures forall e {:trigger multiset(r)[e]} :: multiset(r)[e] == if e.host == createHost(u) then multiset(entries)[e] else 0
    {
      EntriesFor(entries, createHost(u))
    }

    /** Something is stored for `u` when storing is enabled for it and some entry is filed under its host. */
    function IsStored(u: Url): (r: bool)
      reads this
      ensures r <==> IsStoringEnabled(u) && exists e :: e in entries && e.host == createHost(u)
    {
      if !IsStoringEnabled(u) then false
      else
        var list := GetFormData(u);
        assert list != [] ==> list[0] in list;
        list != []
    }

    /** Adds the server of `u` to the exception table. */
    method BlockStoringForUrl(u: Url)
      modifies this`exceptions
      ensures exceptions == old(exceptions) + [Server(u)]
      ensures exceptionsReadable ==> ExceptionQuery(Server(u)) == Some(old(ExceptionQuery(Server(u))).value + 1)
      ensures !IsStoringEnabled(u)
      ensures forall v :: Server(v) != Server(u) ==> IsStoringEnabled(v) == old(IsStoringEnabled(v))
    {
      CountAppend(exceptions, Server(u), Server(u));
      exceptions := exceptions + [Server(u)];
    }

    /** Asks the password manager to refresh the last-used mark of `entry`. */
    method UpdateLastUsed(entry: PasswordEntry)
      modifies this`managerCalls
      ensures managerCalls == old(managerCalls) + [UpdateLastUsedCall(entry)]
    {
      managerCalls := managerCalls + [UpdateLastUsedCall(entry)];
    }

    /** Asks the password manager to add a credential for `u` with no form data. */
    method AddEntry(u: Url, name: string, password: string)
      modifies this`managerCalls
      ensures managerCalls == old(managerCalls) + [AddCall(EmptyEntry.(host := createHost(u), username := name, password := password))]
    {
      var entry := EmptyEntry.(host := createHost(u), username := name, password := password);
      managerCalls := managerCalls + [AddCall(entry)];
    }

    /** Asks the password manager to add the captured form of `u`. */
    method AddFormEntry(u: Url, formData: PageFormData)
      modifies this`managerCalls
      ensures managerCalls == old(managerCalls) +
        [AddCall(PasswordEntry(createHost(u), formData.username, formData.password, formData.postData))]
    {
      var entry := EmptyEntry.(host := createHost(u), username := formData.username,
                               password := formData.password, data := formData.postData);
      managerCalls := managerCalls + [AddCall(entry)];
    }

    /** Asks the password manager to update the credential for `u`, with no form data. */
    method UpdateEntry(u: Url, name: string, password: string)
      modifies this`managerCalls
      ensures managerCalls == old(managerCalls) + [UpdateCall(EmptyEntry.(host := createHost(u), username := name, password := password))]
    {
      var entry := EmptyEntry.(host := createHost(u), username := name, password := password);
      managerCalls := managerCalls + [UpdateCall(entry)];
    }

    /** Hands an already built entry to the password manager for update. */
    method UpdateStoredEntry(entry: PasswordEntry)
      modifies this`managerCalls
      ensures managerCalls == old(managerCalls) + [UpdateCall(entry)]
    {
      managerCalls := managerCalls + [UpdateCall(entry)];
    }

    /** Hands an entry to the password manager for removal. */
    method RemoveEntry(entry: PasswordEntry)
      modifies this`managerCalls
      ensures managerCalls == old(managerCalls) + [RemoveCall(entry)]
    {
      managerCalls := managerCalls + [RemoveCall(entry)];
    }

    /** Asks the password manager to remove every entry. */
    method RemoveAllEntries()
      modifies this`managerCalls
      ensures managerCalls == old(managerCalls) + [RemoveAllCall]
    {
      managerCalls := managerCalls + [RemoveAllCall];
    }

    /**
     * Handles a submitted login form of `frameUrl`. Does nothing in private
     * browsing, without a page, or when storing is disabled for the frame.
     * Otherwise looks for the first stored entry with the submitted username:
     * refreshes its last-used mark, and stops there when the password is the
     * same; in every other case returns the prompt to show.
     */
    method SaveForm(privateBrowsing: bool, pageNull: bool, frameUrl: Url, formData: PageFormData)
      returns (outcome: SaveOutcome)
      modifies this`managerCalls
      ensures outcome == SaveDecision(!privateBrowsing && !pageNull && old(IsStoringEnabled(frameUrl)),
                                      old(GetFormData(frameUrl)), frameUrl, formData)
      ensures var refreshed := LastUsedRefresh(!privateBrowsing && !pageNull && old(IsStoringEnabled(frameUrl)),
                                               old(GetFormData(frameUrl)), formData.username);
              managerCalls == old(managerCalls) + (if refreshed.Some? then [UpdateLastUsedCall(refreshed.value)] else [])
    {
      if privateBrowsing || pageNull {
        return NoOp;
      }
      if !IsStoringEnabled(frameUrl) {
        return NoOp;
      }
      var updateData := EmptyEntry;
      if IsStored(frameUrl) {
        var list := GetFormData(frameUrl);
        var i := 0;
        while i < |list|
          invariant 0 <= i <= |list|
          invariant forall j :: 0 <= j < i ==> list[j].username != formData.username
          invariant managerCalls == old(managerCalls) && updateData == EmptyEntry
        {
          var data := list[i];
          if data.username == formData.username {
            updateData := data;
            UpdateLastUsed(updateData);
            if data.password == formData.password {
              return RefreshOnly(data);
            }
            updateData := UpdateDraft(updateData, formData);
            break;
          }
          i := i + 1;
        }
      }
      outcome := Prompt(frameUrl, formData, updateData);
    }

    /**
     * On page load: returns what is stored for `frameUrl` when there is a page
     * and the frame is stored, and the text handed to the page script: the
     * first entry's form data with its quotes escaped.
     */
    method CompletePage(pageNull: bool, frameUrl: Url) returns (list: seq<PasswordEntry>, scriptData: Option<string>)
      ensures pageNull || !IsStored(frameUrl) ==> list == [] && scriptData == None
      ensures !pageNull && IsStored(frameUrl) ==>
        list == GetFormData(frameUrl) && list != [] && scriptData == Some(Escape(list[0].data))
      ensures scriptData.Some? ==>
                list != [] &&
                |scriptData.value| == |list[0].data| + QuoteCount(list[0].data) &&
                Unescape(scriptData.value) == list[0].data
    {
      list := [];
      scriptData := None;
      if pageNull || !IsStored(frameUrl) {
        return;
      }
      list := GetFormData(frameUrl);
      if list != [] {
        var entry := list[0];
        var data := Escape(entry.data);
        UnescapeEscape(entry.data);
        scriptData := Some(data);
      }
    }
  }
}
