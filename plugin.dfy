/**
 * The plugin object (class Main): its icon, its configured transforms directory, its lifecycle,
 * and the list of results Query offers for the transform files found under that directory.
 */
module Plugin {
  import opened Wrappers
  import opened Text

  /** The host's themes (ManagedCommon.Theme). */
  datatype Theme = System | Light | Dark | HighContrastOne | HighContrastTwo | HighContrastBlack | HighContrastWhite

  const LIGHT_ICON: string := "Images/transform.light.png"
  const DARK_ICON: string := "Images/transform.dark.png"

  /** The icon for a theme: the light image on the two light themes, the dark one on every other. */
  function IconFor(theme: Theme): (icon: string)
    ensures icon == LIGHT_ICON <==> theme == Light || theme == HighContrastWhite
    ensures icon == DARK_ICON <==> !(theme == Light || theme == HighContrastWhite)
  {
    if theme == Light || theme == HighContrastWhite then LIGHT_ICON else DARK_ICON
  }

  /** One entry of the plugin's settings (PluginAdditionalOption): its key and its text value, which may be null. */
  datatype AdditionalOption = AdditionalOption(key: string, textValue: Option<string>)

  const SETTING_KEY: string := "TransformsDirectoryPath"
  const MORE_THAN_ONE_MATCH_MESSAGE: string := "Sequence contains more than one matching element"

  /** How many options carry `key`. */
  function CountKey(options: seq<AdditionalOption>, key: string): nat
  {
    if options == [] then 0
    else (if options[0].key == key then 1 else 0) + CountKey(options[1..], key)
  }

  /**
   * Enumerable.SingleOrDefault(x => x.Key == key): no match gives null, exactly one gives that
   * option, and a second match throws.
   */
  function SingleOrDefault(options: seq<AdditionalOption>, key: string): (r: Result<Option<AdditionalOption>, string>)
    ensures r == Success(None) <==> CountKey(options, key) == 0
    ensures r.Success? && r.value.Some? <==> CountKey(options, key) == 1
    ensures r.Success? && r.value.Some? ==> r.value.value in options && r.value.value.key == key
    ensures r.Failure? <==> CountKey(options, key) >= 2
    ensures r.Failure? ==> r.error == MORE_THAN_ONE_MATCH_MESSAGE
  {
    if options == [] then Success(None)
    else
      var rest := SingleOrDefault(options[1..], key);
      if options[0].key != key then rest
      else if rest == Success(None) then Success(Some(options[0]))
      else Failure(MORE_THAN_ONE_MATCH_MESSAGE)
  }

  /** The only option with the key is the one SingleOrDefault picks. */
  lemma {:induction false} SingleOrDefaultPicksTheMatch(options: seq<AdditionalOption>, key: string, i: nat)
    requires i < |options| && options[i].key == key && CountKey(options, key) == 1
    ensures SingleOrDefault(options, key) == Success(Some(options[i]))
  {
    if i == 0 {
      assert CountKey(options[1..], key) == 0;
    } else {
      assert options[0].key != key by {
        if options[0].key == key {
          CountKeyAt(options[1..], key, i - 1);
        }
      }
      SingleOrDefaultPicksTheMatch(options[1..], key, i - 1);
    }
  }

  lemma {:induction false} CountKeyAt(options: seq<AdditionalOption>, key: string, i: nat)
    requires i < |options| && options[i].key == key
    ensures CountKey(options, key) >= 1
  {
    if i > 0 {
      CountKeyAt(options[1..], key, i - 1);
    }
  }

  const PLACEHOLDER_TITLE: string := "Transform directory path not set, please go to settings and set it."
  const FILE_SUBTITLE: string := "Transform file"

  /**
   * One entry of a query's result list (Wox.Plugin.Result), restricted to the members the plugin sets;
   * `None` stands for a member left unset. `applies` is the transform file whose application the
   * entry's action runs.
   */
  datatype QueryResult = QueryResult(
    title: string,
    subTitle: Option<string>,
    icoPath: Option<string>,
    queryTextDisplay: Option<string>,
    contextData: Option<string>,
    applies: Option<string>)

  /** Host-supplied start-up context (PluginInitContext): here, the theme its API reports. */
  datatype InitContext = InitContext(currentTheme: Theme)

  const ARGUMENT_NULL_MESSAGE: string := "Value cannot be null. (Parameter 'context')"

  class Main {
    var IconPath: Option<string>
    var Disposed: bool
    var TransformsDirectoryPath: Option<string>
    /** Whether Init has stored a context (and with it the host API). */
    var HasContext: bool
    /** How many times OnThemeChanged is attached to the host's ThemeChanged event. */
    var ThemeSubscriptions: nat

    /** The handler is attached only through a stored context. */
    ghost predicate Valid()
      reads this
    {
      ThemeSubscriptions > 0 ==> HasContext
    }

    constructor ()
      ensures Valid()
      ensures IconPath == None && !Disposed && TransformsDirectoryPath == None
      ensures !HasContext && ThemeSubscriptions == 0
    {
      IconPath := None;
      Disposed := false;
      TransformsDirectoryPath := None;
      HasContext := false;
      ThemeSubscriptions := 0;
    }

    /** Init: a null context throws before anything changes; otherwise subscribe and take the icon from the theme. */
    method Init(context: Option<InitContext>) returns (thrown: Outcome)
      requires Valid()
      modifies this
      ensures Valid()
      ensures thrown == (if context.None? then Fail(ARGUMENT_NULL_MESSAGE) else Pass)
      ensures context.None? ==> unchanged(this)
      ensures context.Some? ==>
        && HasContext && ThemeSubscriptions == old(ThemeSubscriptions) + 1
        && IconPath == Some(IconFor(context.value.currentTheme))
        && Disposed == old(Disposed) && TransformsDirectoryPath == old(TransformsDirectoryPath)
    {
      if context.None? {
        return Fail(ARGUMENT_NULL_MESSAGE);
      }
      HasContext := true;
      ThemeSubscriptions := ThemeSubscriptions + 1;
      UpdateIconPath(context.value.currentTheme);
      return Pass;
    }

    /** UpdateIconPath: the icon follows the given theme; nothing else changes. */
    method UpdateIconPath(theme: Theme)
      modifies this`IconPath
      ensures IconPath == Some(IconFor(theme))
    {
      IconPath := Some(IconFor(theme));
    }

    /** OnThemeChanged: only the new theme matters. */
    method OnThemeChanged(currentTheme: Theme, newTheme: Theme)
      modifies this`IconPath
      ensures IconPath == Some(IconFor(newTheme))
    {
      UpdateIconPath(newTheme);
    }

    /**
     * UpdateSettings: the directory becomes the text value of the single option keyed
     * TransformsDirectoryPath, or null when there is none; a second such option throws and
     * leaves the directory as it was.
     */
    method UpdateSettings(options: seq<AdditionalOption>) returns (thrown: Outcome)
      modifies this`TransformsDirectoryPath
      ensures thrown.Fail? <==> CountKey(options, SETTING_KEY) >= 2
      ensures thrown.Fail? ==> thrown.message == MORE_THAN_ONE_MATCH_MESSAGE
      ensures thrown.Fail? ==> TransformsDirectoryPath == old(TransformsDirectoryPath)
      ensures CountKey(options, SETTING_KEY) == 0 ==> TransformsDirectoryPath == None
      ensures forall i | 0 <= i < |options| && options[i].key == SETTING_KEY && CountKey(options, SETTING_KEY) == 1 ::
        TransformsDirectoryPath == options[i].textValue
    {
      var found := SingleOrDefault(options, SETTING_KEY);
      if found.Failure? {
        return Fail(found.error);
      }
      TransformsDirectoryPath := if found.value.Some? then found.value.value.textValue else None;
      forall i | 0 <= i < |options| && options[i].key == SETTING_KEY && CountKey(options, SETTING_KEY) == 1
        ensures found.value == Some(options[i])
      {
        SingleOrDefaultPicksTheMatch(options, SETTING_KEY, i);
      }
      return Pass;
    }

    /**
     * Dispose(bool): the first Dispose(true) detaches the theme handler (when there is a context)
     * and marks the plugin disposed; Dispose(false), and any call once disposed, change nothing.
     */
    method DisposeCore(disposing: bool)
      requires Valid()
      modifies this
      ensures Valid()
      ensures old(Disposed) || !disposing ==> unchanged(this)
      ensures !old(Disposed) && disposing ==>
        && Disposed
        && ThemeSubscriptions == (if old(ThemeSubscriptions) > 0 then old(ThemeSubscriptions) - 1 else 0)
        && IconPath == old(IconPath) && TransformsDirectoryPath == old(TransformsDirectoryPath)
        && HasContext == old(HasContext)
    {
      if Disposed || !disposing {
        return;
      }
      if HasContext && ThemeSubscriptions > 0 {
        ThemeSubscriptions := ThemeSubscriptions - 1;
      }
      Disposed := true;
    }

    /** Dispose(): Dispose(true). */
    method Dispose()
      requires Valid()
      modifies this
      ensures Valid() && Disposed
      ensures old(Disposed) ==> unchanged(this)
      ensures !old(Disposed) ==>
        && ThemeSubscriptions == (if old(ThemeSubscriptions) > 0 then old(ThemeSubscriptions) - 1 else 0)
        && IconPath == old(IconPath) && TransformsDirectoryPath == old(TransformsDirectoryPath)
        && HasContext == old(HasContext)
    {
      DisposeCore(true);
    }

    /**
     * Query: with no directory configured, one placeholder entry and no scan; otherwise one entry per
     * .json file that `enumerate` finds under the directory (all subdirectories included), in the
     * order found, or the enumeration's exception.
     */
    function Query(search: string, enumerate: string -> Result<seq<string>, string>): (r: Result<seq<QueryResult>, string>)
      reads this
      ensures IsNullOrWhiteSpace(TransformsDirectoryPath) ==>
        r == Success([QueryResult(PLACEHOLDER_TITLE, None, IconPath, None, None, None)])
      ensures !IsNullOrWhiteSpace(TransformsDirectoryPath) ==>
        var listing := enumerate(TransformsDirectoryPath.value);
        && (listing.Failure? ==> r == Failure(listing.error))
        && (listing.Success? ==>
              && r.Success? && |r.value| == |listing.value|
              && forall i | 0 <= i < |listing.value| ::
                   && r.value[i].title == FileName(listing.value[i])
                   && r.value[i].subTitle == Some(FILE_SUBTITLE)
                   && r.value[i].icoPath == IconPath
                   && r.value[i].queryTextDisplay == Some(search)
                   && r.value[i].contextData == Some(search)
                   && r.value[i].applies == Some(listing.value[i]))
    {
      if IsNullOrWhiteSpace(TransformsDirectoryPath) then
        Success([QueryResult(PLACEHOLDER_TITLE, None, IconPath, None, None, None)])
      else
        match enumerate(TransformsDirectoryPath.value)
        case Failure(m) => Failure(m)
        case Success(paths) =>
          var icon := IconPath;
          Success(seq(|paths|, i requires 0 <= i < |paths| =>
            QueryResult(FileName(paths[i]), Some(FILE_SUBTITLE), icon, Some(search), Some(search), Some(paths[i]))))
    }

    /** With no directory configured the answer does not depend on what a scan would find. */
    lemma QueryDoesNotScanWhenUnset(search: string, e1: string -> Result<seq<string>, string>, e2: string -> Result<seq<string>, string>)
      requires IsNullOrWhiteSpace(TransformsDirectoryPath)
      ensures Query(search, e1) == Query(search, e2)
    {
    }

    /** Every file entry's title is the bare file name at the end of its path. */
    lemma QueryTitlesAreFileNames(search: string, enumerate: string -> Result<seq<string>, string>)
      requires Query(search, enumerate).Success?
      ensures var results := Query(search, enumerate).value;
        forall i | 0 <= i < |results| && results[i].applies.Some? ::
          var path := results[i].applies.value;
          && path[|path| - |results[i].title|..] == results[i].title
          && forall k | 0 <= k < |results[i].title| :: !IsDirectorySeparator(results[i].title[k])
    {
    }
  }
}
