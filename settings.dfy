/**
 * The settings form: four text fields filled from the settings the server
 * returned, a `hasChanges` flag that compares them with those settings, and
 * the save action, which sends the thread counts through `parseInt(x) || 1`
 * and the folder paths as typed. The PATCH call is reduced to whether its
 * response was OK.
 */
module Settings {
  import opened Wrappers
  import opened JsText
  import opened QueryCache
  import opened UseToast

  /** A property of the settings object the server sent (typed `any` in the
      source): missing, `null`, or a value. */
  datatype Field<T> = Undefined | Null | Defined(value: T)

  datatype StoredSettings = StoredSettings(
    telegramThreads: Field<int>,
    telegramFolderPath: Field<string>,
    chromeThreads: Field<int>,
    chromeFolderPath: Field<string>)

  /** The texts of the four inputs. */
  datatype FormFields = FormFields(
    telegramThreads: string,
    telegramFolderPath: string,
    chromeThreads: string,
    chromeFolderPath: string)

  /** The body of the PATCH request. */
  datatype Payload = Payload(
    telegramThreads: int,
    telegramFolderPath: string,
    chromeThreads: int,
    chromeFolderPath: string)

  // ---------------------------------------------------------------------------
  // JavaScript conversions on stored fields

  /** Truthiness of a stored count: missing, `null` and 0 are falsy. */
  predicate CountTruthy(f: Field<int>) {
    f.Defined? && f.value != 0
  }

  /** `String(count || "1")` */
  function CountText(f: Field<int>): string {
    if CountTruthy(f) then IntToString(f.value) else "1"
  }

  /** `path || ""` */
  function PathText(f: Field<string>): string {
    if f.Defined? then f.value else ""
  }

  /** `String(count)`: a missing count prints as "undefined", a `null` one as "null". */
  function CountString(f: Field<int>): string {
    match f
    case Undefined => "undefined"
    case Null => "null"
    case Defined(n) => IntToString(n)
  }

  /** `text === path`: a string is never strictly equal to `undefined` or `null`. */
  predicate SameText(text: string, f: Field<string>) {
    f.Defined? && f.value == text
  }

  // ---------------------------------------------------------------------------
  // The form's logic

  /** The first effect: what the inputs show once settings have arrived. */
  function LoadFields(s: StoredSettings): FormFields {
    FormFields(CountText(s.telegramThreads), PathText(s.telegramFolderPath),
               CountText(s.chromeThreads), PathText(s.chromeFolderPath))
  }

  /** The second effect's comparison: some input differs from the stored value. */
  predicate Changed(form: FormFields, s: StoredSettings) {
    || form.telegramThreads != CountString(s.telegramThreads)
    || !SameText(form.telegramFolderPath, s.telegramFolderPath)
    || form.chromeThreads != CountString(s.chromeThreads)
    || !SameText(form.chromeFolderPath, s.chromeFolderPath)
  }

  /** Settings the form can show unchanged: both counts present and non-zero,
      both paths present (possibly empty). */
  predicate Clean(s: StoredSettings) {
    && CountTruthy(s.telegramThreads) && s.telegramFolderPath.Defined?
    && CountTruthy(s.chromeThreads) && s.chromeFolderPath.Defined?
  }

  /** `parseInt(text) || 1`: never 0; the number `parseInt` read, unless that
      was NaN or 0. */
  function ThreadCount(text: string): (count: int)
    ensures count != 0
    ensures count == 1 || ParseInt(text) == Int(count)
    ensures ParseInt(text).Truthy() ==> ParseInt(text) == Int(count)
  {
    var n := ParseInt(text);
    if n.Truthy() then n.value else 1
  }

  /** `handleSave`'s argument to the mutation. */
  function SavePayload(form: FormFields): Payload {
    Payload(ThreadCount(form.telegramThreads), form.telegramFolderPath,
            ThreadCount(form.chromeThreads), form.chromeFolderPath)
  }

  /** Right after loading, the form reports changes exactly when the stored
      settings are not clean: a falsy count shows as "1" but compares against
      "0", "undefined" or "null", and a missing path shows as "" but is never
      equal to it. */
  lemma LoadedChangedIff(s: StoredSettings)
    ensures Changed(LoadFields(s), s) <==> !Clean(s)
  {
    CountTextMatches(s.telegramThreads);
    CountTextMatches(s.chromeThreads);
  }

  lemma CountTextMatches(f: Field<int>)
    ensures CountText(f) == CountString(f) <==> CountTruthy(f)
  {
    if f.Defined? && f.value == 0 {
      assert CountString(f) == "0";
      assert CountText(f) == "1";
    }
  }

  /** Saving right after loading sends the stored counts (1 in place of a
      falsy one) and the stored paths ("" in place of a missing one). */
  lemma LoadThenSave(s: StoredSettings)
    ensures SavePayload(LoadFields(s)) == Payload(
              CountOr1(s.telegramThreads), PathText(s.telegramFolderPath),
              CountOr1(s.chromeThreads), PathText(s.chromeFolderPath))
  {
    CountRoundTrip(s.telegramThreads);
    CountRoundTrip(s.chromeThreads);
  }

  /** `count || 1` */
  function CountOr1(f: Field<int>): int {
    if CountTruthy(f) then f.value else 1
  }

  lemma CountRoundTrip(f: Field<int>)
    ensures ThreadCount(CountText(f)) == CountOr1(f)
  {
    if CountTruthy(f) {
      ThreadCountOfString(f.value);
    } else {
      ThreadCountOfString(1);
      assert IntToString(1) == "1";
    }
  }

  /** `parseInt(String(n)) || 1` is n for every non-zero n. */
  lemma ThreadCountOfString(n: int)
    requires n != 0
    ensures ThreadCount(IntToString(n)) == n
  {
    ParseIntOfIntToString(n, "");
    assert IntToString(n) + "" == IntToString(n);
    assert ParseInt(IntToString(n)) == Int(n);
  }

  /** Typing the numeral of `n` into a thread field sends `n` (1 for 0), and
      text after the digits, such as a fraction, is ignored. */
  lemma ThreadCountOfNumeral(n: int, rest: string)
    requires rest == [] || !(IsDecimalDigit(rest[0]) || rest[0] == 'x' || rest[0] == 'X')
    ensures ThreadCount(IntToString(n) + rest) == if n == 0 then 1 else n
  {
    ParseIntOfIntToString(n, rest);
  }

  /** The names of the four inputs. */
  datatype Input = TelegramThreads | TelegramFolderPath | ChromeThreads | ChromeFolderPath

  /** The form with one input replaced. */
  function WithInput(form: FormFields, input: Input, text: string): FormFields {
    match input
    case TelegramThreads => form.(telegramThreads := text)
    case TelegramFolderPath => form.(telegramFolderPath := text)
    case ChromeThreads => form.(chromeThreads := text)
    case ChromeFolderPath => form.(chromeFolderPath := text)
  }

  /** After loading clean settings and typing a new thread count `n` for
      Telegram, the save sends `n` and leaves every other value as stored. */
  lemma EditTelegramThreadsThenSave(s: StoredSettings, n: int)
    requires Clean(s) && n != 0
    ensures SavePayload(WithInput(LoadFields(s), TelegramThreads, IntToString(n))) == Payload(
              n, s.telegramFolderPath.value, s.chromeThreads.value, s.chromeFolderPath.value)
  {
    LoadThenSave(s);
    ThreadCountOfNumeral(n, "");
    assert IntToString(n) + "" == IntToString(n);
  }

  // ---------------------------------------------------------------------------
  // The component's state

  /** The success toast's title and description. */
  const SavedTitle := "Налаштування збережено"
  const SavedDescription := "Ваші зміни успішно застосовані."

  class Form {
    var telegramThreads: string
    var telegramFolderPath: string
    var chromeThreads: string
    var chromeFolderPath: string
    var hasChanges: bool

    function Fields(): FormFields
      reads this
    {
      FormFields(telegramThreads, telegramFolderPath, chromeThreads, chromeFolderPath)
    }

    constructor ()
      ensures Fields() == FormFields("", "", "", "") && !hasChanges
    {
      telegramThreads, telegramFolderPath, chromeThreads, chromeFolderPath := "", "", "", "";
      hasChanges := false;
    }

    /** The first effect: `if (settings)` fill the inputs. */
    method LoadEffect(settings: Option<StoredSettings>)
      modifies this
      ensures settings.Some? ==> Fields() == LoadFields(settings.value)
      ensures settings.None? ==> Fields() == old(Fields())
      ensures hasChanges == old(hasChanges)
    {
      if settings.Some? {
        var s := settings.value;
        telegramThreads := CountText(s.telegramThreads);
        telegramFolderPath := PathText(s.telegramFolderPath);
        chromeThreads := CountText(s.chromeThreads);
        chromeFolderPath := PathText(s.chromeFolderPath);
      }
    }

    /** The second effect: `if (settings)` recompute `hasChanges`. */
    method ChangesEffect(settings: Option<StoredSettings>)
      modifies this`hasChanges
      ensures settings.Some? ==> hasChanges == Changed(Fields(), settings.value)
      ensures settings.None? ==> hasChanges == old(hasChanges)
    {
      if settings.Some? {
        hasChanges := Changed(Fields(), settings.value);
      }
    }

    /** Settings arrive: the inputs are filled, and once the second effect has
        run on the filled inputs, the form is unchanged exactly when the
        settings are clean, so the save button starts disabled for them. */
    method OnSettings(s: StoredSettings)
      modifies this
      ensures Fields() == LoadFields(s)
      ensures hasChanges <==> !Clean(s)
      ensures Clean(s) ==> !SaveEnabled(false)
    {
      LoadEffect(Some(s));
      ChangesEffect(Some(s));
      LoadedChangedIff(s);
    }

    /** An input's `onChange`, followed by the second effect, which re-runs
        because the input's state changed. */
    method Edit(settings: Option<StoredSettings>, input: Input, text: string)
      modifies this
      ensures Fields() == WithInput(old(Fields()), input, text)
      ensures settings.Some? ==> hasChanges == Changed(Fields(), settings.value)
      ensures settings.Some? ==> (SaveEnabled(false) <==> Changed(Fields(), settings.value))
      ensures settings.None? ==> hasChanges == old(hasChanges)
    {
      match input {
        case TelegramThreads => telegramThreads := text;
        case TelegramFolderPath => telegramFolderPath := text;
        case ChromeThreads => chromeThreads := text;
        case ChromeFolderPath => chromeFolderPath := text;
      }
      ChangesEffect(settings);
    }

    /** `disabled={!hasChanges || mutation.isPending}`, negated: saving is
        possible with changes and no save pending, and only then. */
    function SaveEnabled(isPending: bool): (enabled: bool)
      reads this
      ensures enabled ==> hasChanges && !isPending
      ensures hasChanges && !isPending ==> enabled
    {
      hasChanges && !isPending
    }

    /** `handleSave` and the mutation: sends the payload; a response that is
        not OK throws, so nothing else happens; an OK one invalidates the
        settings key and shows the success toast. */
    method HandleSave(client: QueryClient, toaster: Toaster, responseOk: bool) returns (sent: Payload)
      modifies client, toaster
      ensures sent == SavePayload(Fields())
      ensures sent.telegramThreads != 0 && sent.chromeThreads != 0
      ensures !responseOk ==> client.invalidated == old(client.invalidated) && toaster.shown == old(toaster.shown)
      ensures responseOk ==>
                && client.invalidated == old(client.invalidated) + [SettingsGet]
                && toaster.shown == old(toaster.shown) + [Message(Some(SavedTitle), Some(SavedDescription))]
    {
      sent := SavePayload(Fields());
      if responseOk {
        client.InvalidateQueries(SettingsGet);
        toaster.Toast(Some(SavedTitle), Some(SavedDescription));
      }
    }
  }
}
