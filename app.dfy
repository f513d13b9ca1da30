// The `App` component of the password generator (src/App.jsx): the state it
// keeps with `useState`, the setters the form calls, and the generate and copy
// handlers. Toasts and clipboard writes are recorded in a ghost log.

module AppComponent {
  import opened CharacterPool
  import opened Sampling

  /** An observable side effect: a toast (`notify`) or a clipboard write (`copyToClipboard`). */
  datatype Effect = Notify(message: string, hasError: bool) | WriteClipboard(text: string)

  const NoOptionSelected := "Select at least one option"
  const PasswordGenerated := "Password generated successfully"
  const NothingToCopy := "Nothing to copy"
  const PasswordCopied := "Password copied to clipboard"

  /** The number of toasts in a log. */
  function NotificationCount(effects: seq<Effect>): nat
  {
    if effects == [] then 0
    else NotificationCount(effects[..|effects| - 1]) + (if effects[|effects| - 1].Notify? then 1 else 0)
  }

  /** The texts written to the clipboard, in order. */
  function ClipboardWrites(effects: seq<Effect>): seq<string>
  {
    if effects == [] then []
    else ClipboardWrites(effects[..|effects| - 1])
         + (if effects[|effects| - 1].WriteClipboard? then [effects[|effects| - 1].text] else [])
  }

  /** Counting toasts and clipboard writes distributes over appending to the log. */
  lemma {:induction false} LogAppend(effects: seq<Effect>, more: seq<Effect>)
    ensures NotificationCount(effects + more) == NotificationCount(effects) + NotificationCount(more)
    ensures ClipboardWrites(effects + more) == ClipboardWrites(effects) + ClipboardWrites(more)
  {
    if more == [] {
      assert effects + more == effects;
    } else {
      assert (effects + more)[..|effects + more| - 1] == effects + more[..|more| - 1];
      LogAppend(effects, more[..|more| - 1]);
    }
  }

  class App {
    /** The strings imported from `./Character`. */
    const alphabets: Alphabets

    var password: string
    var passwordLength: int
    var includeUpperCase: bool
    var includeLowerCase: bool
    var includeNumbers: bool
    var includeSymbols: bool

    /** Every toast shown and every clipboard write, oldest first. */
    ghost var effects: seq<Effect>

    function CurrentOptions(): Options
      reads this
    {
      Options(includeUpperCase, includeLowerCase, includeNumbers, includeSymbols)
    }

    /** The pool that a generation would sample from now. */
    function CurrentPool(): string
      reads this
    {
      Pool(alphabets, CurrentOptions())
    }

    /** The initial state of the component. */
    constructor (alphabets: Alphabets)
      ensures this.alphabets == alphabets
      ensures password == "" && passwordLength == 24
      ensures includeUpperCase && includeLowerCase && includeNumbers && !includeSymbols
      ensures effects == []
    {
      this.alphabets := alphabets;
      password := "";
      passwordLength := 24;
      includeUpperCase := true;
      includeLowerCase := true;
      includeNumbers := true;
      includeSymbols := false;
      effects := [];
    }

    /** The slider's `onChange`. */
    method SetPasswordLength(value: int)
      modifies this`passwordLength
      ensures passwordLength == value
    {
      passwordLength := value;
    }

    /** The upper-case checkbox's `onChange`. */
    method SetIncludeUpperCase(checked: bool)
      modifies this`includeUpperCase
      ensures CurrentOptions() == old(CurrentOptions()).(includeUpperCase := checked)
    {
      includeUpperCase := checked;
    }

    /** The lower-case checkbox's `onChange`. */
    method SetIncludeLowerCase(checked: bool)
      modifies this`includeLowerCase
      ensures CurrentOptions() == old(CurrentOptions()).(includeLowerCase := checked)
    {
      includeLowerCase := checked;
    }

    /** The numbers checkbox's `onChange`. */
    method SetIncludeNumbers(checked: bool)
      modifies this`includeNumbers
      ensures CurrentOptions() == old(CurrentOptions()).(includeNumbers := checked)
    {
      includeNumbers := checked;
    }

    /** The symbols checkbox's `onChange`. */
    method SetIncludeSymbols(checked: bool)
      modifies this`includeSymbols
      ensures CurrentOptions() == old(CurrentOptions()).(includeSymbols := checked)
    {
      includeSymbols := checked;
    }

    /** `handleGeneratePassword`. With no class selected it only shows an error toast;
        otherwise it stores a password sampled from the current pool (the ghost
        `draws` are the indices picked) and shows a success toast. */
    method HandleGeneratePassword() returns (ghost draws: seq<int>)
      modifies this`password, this`effects
      ensures !CurrentOptions().AnyIncluded() ==>
        password == old(password) && effects == old(effects) + [Notify(NoOptionSelected, true)]
      ensures CurrentOptions().AnyIncluded() ==>
        |draws| == Iterations(passwordLength)
        && (forall k :: k in draws ==> IsDrawnIndex(k, |CurrentPool()|))
        && password == Sample(CurrentPool(), draws)
        && effects == old(effects) + [Notify(PasswordGenerated, false)]
      ensures CurrentOptions().AnyIncluded() ==>
        forall i :: 0 <= i < |password| ==> password[i] in CurrentPool()
      ensures CurrentOptions().AnyIncluded() && alphabets.NonEmpty() ==>
        |password| == Iterations(passwordLength)
    {
      draws := [];
      if !includeUpperCase && !includeLowerCase && !includeNumbers && !includeSymbols {
        effects := effects + [Notify(NoOptionSelected, true)];
      } else {
        var characterList := AssembleCharacterList(alphabets, CurrentOptions());
        PoolEmptiness(alphabets, CurrentOptions());
        password, draws := CreatePassword(characterList, passwordLength);
        effects := effects + [Notify(PasswordGenerated, false)];
      }
    }

    /** `handleCopyPassword`. An empty password gives an error toast and no clipboard
        write; otherwise the password goes to the clipboard, then a success toast. */
    method HandleCopyPassword()
      modifies this`effects
      ensures password == "" ==> effects == old(effects) + [Notify(NothingToCopy, true)]
      ensures password != "" ==>
        effects == old(effects) + [WriteClipboard(password), Notify(PasswordCopied, false)]
    {
      if password == "" {
        effects := effects + [Notify(NothingToCopy, true)];
      } else {
        effects := effects + [WriteClipboard(password)];
        effects := effects + [Notify(PasswordCopied, false)];
      }
    }
  }

  /** Each generate call shows exactly one toast and writes nothing to the clipboard. */
  method GenerateNotifiesOnce(app: App)
    modifies app`password, app`effects
    ensures NotificationCount(app.effects) == NotificationCount(old(app.effects)) + 1
    ensures ClipboardWrites(app.effects) == ClipboardWrites(old(app.effects))
    ensures app.passwordLength == old(app.passwordLength) && app.CurrentOptions() == old(app.CurrentOptions())
  {
    ghost var before := app.effects;
    var _ := app.HandleGeneratePassword();
    LogAppend(before, app.effects[|before|..]);
    assert before + app.effects[|before|..] == app.effects;
  }

  /** A copy shows exactly one toast; it writes the current password to the
      clipboard exactly when there is one. */
  method CopyNotifiesOnce(app: App)
    modifies app`effects
    ensures NotificationCount(app.effects) == NotificationCount(old(app.effects)) + 1
    ensures ClipboardWrites(app.effects) ==
      ClipboardWrites(old(app.effects)) + (if app.password == "" then [] else [app.password])
  {
    ghost var before := app.effects;
    app.HandleCopyPassword();
    ghost var more := app.effects[|before|..];
    LogAppend(before, more);
    assert before + more == app.effects;
    if app.password != "" {
      assert more[..1] == [WriteClipboard(app.password)];
      assert more[..1][..0] == [];
      assert NotificationCount(more[..1]) == 0;
      assert ClipboardWrites(more[..1]) == [app.password];
    }
  }

  /** After a generation with at least one class selected and a length of at least
      one, the password is non-empty, so a copy that follows writes exactly that
      password to the clipboard. */
  method GenerateThenCopy(app: App)
    requires app.alphabets.NonEmpty() && app.CurrentOptions().AnyIncluded() && app.passwordLength >= 1
    modifies app`password, app`effects
    ensures app.password != "" && |app.password| == app.passwordLength
    ensures app.effects == old(app.effects) + [Notify(PasswordGenerated, false),
                                               WriteClipboard(app.password),
                                               Notify(PasswordCopied, false)]
  {
    var _ := app.HandleGeneratePassword();
    app.HandleCopyPassword();
  }

  /** The initial state: the defaults select digits, upper and lower case; a copy
      before any generation reports that there is nothing to copy. */
  method CopyBeforeGenerate(alphabets: Alphabets) returns (app: App)
    ensures app.password == "" && app.passwordLength == 24
    ensures app.CurrentPool() == alphabets.numbers + alphabets.upperCaseLetters + alphabets.lowerCaseLetters
    ensures app.effects == [Notify(NothingToCopy, true)]
    ensures ClipboardWrites(app.effects) == []
  {
    app := new App(alphabets);
    assert EnabledClasses(app.CurrentOptions()) == [Numbers, UpperCase, LowerCase];
    ConcatAppend(alphabets, [Numbers], [UpperCase, LowerCase]);
    ConcatAppend(alphabets, [UpperCase], [LowerCase]);
    assert Concat(alphabets, [LowerCase]) == alphabets.lowerCaseLetters + Concat(alphabets, []);
    assert Concat(alphabets, [UpperCase]) == alphabets.upperCaseLetters + Concat(alphabets, []);
    assert Concat(alphabets, [Numbers]) == alphabets.numbers + Concat(alphabets, []);
    app.HandleCopyPassword();
    assert ClipboardWrites(app.effects) == ClipboardWrites([]) + [];
  }

  /** Generating with the initial settings gives a 24-character password made of
      digits and upper- and lower-case letters only. */
  method GenerateWithDefaults(alphabets: Alphabets) returns (app: App)
    requires alphabets.NonEmpty()
    ensures |app.password| == 24
    ensures forall i :: 0 <= i < |app.password| ==>
      app.password[i] in alphabets.numbers
      || app.password[i] in alphabets.upperCaseLetters
      || app.password[i] in alphabets.lowerCaseLetters
    ensures app.effects == [Notify(PasswordGenerated, false)]
  {
    app := new App(alphabets);
    var _ := app.HandleGeneratePassword();
    forall i | 0 <= i < |app.password|
      ensures app.password[i] in alphabets.numbers
              || app.password[i] in alphabets.upperCaseLetters
              || app.password[i] in alphabets.lowerCaseLetters
    {
      PoolMember(alphabets, app.CurrentOptions(), app.password[i]);
      var c :| app.CurrentOptions().Includes(c) && app.password[i] in alphabets.Text(c);
    }
  }

  /** With every flag cleared, generating reports the error and keeps the old password. */
  method GenerateWithNoOptions(app: App)
    modifies app`includeUpperCase, app`includeLowerCase, app`includeNumbers, app`includeSymbols
    modifies app`password, app`effects
    ensures app.password == old(app.password)
    ensures app.effects == old(app.effects) + [Notify(NoOptionSelected, true)]
    ensures app.CurrentPool() == ""
  {
    app.SetIncludeUpperCase(false);
    app.SetIncludeLowerCase(false);
    app.SetIncludeNumbers(false);
    app.SetIncludeSymbols(false);
    var _ := app.HandleGeneratePassword();
    PoolEmptiness(app.alphabets, app.CurrentOptions());
  }

  /** Toggling any one flag and toggling it back restores the flags and the pool exactly. */
  method ToggleTwice(app: App, c: CharClass)
    modifies app`includeUpperCase, app`includeLowerCase, app`includeNumbers, app`includeSymbols
    ensures app.CurrentOptions() == old(app.CurrentOptions()) && app.CurrentPool() == old(app.CurrentPool())
  {
    var was := app.CurrentOptions().Includes(c);
    match c
    case Numbers =>
      app.SetIncludeNumbers(!was);
      app.SetIncludeNumbers(was);
    case UpperCase =>
      app.SetIncludeUpperCase(!was);
      app.SetIncludeUpperCase(was);
    case LowerCase =>
      app.SetIncludeLowerCase(!was);
      app.SetIncludeLowerCase(was);
    case Symbols =>
      app.SetIncludeSymbols(!was);
      app.SetIncludeSymbols(was);
  }
}
