# Password generator: the `App` component, modelled in Dafny

The password generator is a single React component (`src/App.jsx`). It keeps six pieces of
state: the current password (initially empty), the password length (initially 24) and four
include-flags (upper case, lower case and numbers on; symbols off). Three pieces of logic act
on that state:

- **generate** (`handleGeneratePassword`): with no flag set it shows the error toast
  "Select at least one option" and does nothing else. Otherwise it builds the character list by
  appending the enabled classes in a fixed order (numbers, upper case, lower case, symbols). It
  then stores a freshly sampled password and shows a success toast.
- **sample** (`createPassword`): runs `passwordLength` times and each time appends
  `characterList.charAt(Math.floor(Math.random() * characterList.length))`.
- **copy** (`handleCopyPassword`): an empty password gives the error toast "Nothing to copy"
  and no clipboard write. Otherwise the password is written to the clipboard and the success
  toast "Password copied to clipboard" follows.

The model has three modules:

- `CharacterPool` (`character_pool.dfy`) models the character classes and the flags as
  datatypes. `EnabledClasses` lists the enabled classes in assembly order. `Pool` concatenates
  their texts. `AssembleCharacterList` is the step-by-step assembly the handler performs, proved
  equal to `Pool`. Lemmas give membership, emptiness and length of the pool.
- `Sampling` (`sampling.dfy`) models `createPassword` as a method with the source's counted
  loop. Each iteration picks an index that `Math.floor(r * len)` can produce for `r` in [0, 1).
  That is an index of the list, or 0 when the list is empty. The pick is nondeterministic, and a
  ghost out-parameter records the indices picked. `Sample` is the password a given sequence of
  indices yields. Lemmas give its length, its characters and that every character comes from
  the list.
- `AppComponent` (`app.dfy`) models the component as the class `App`. Its fields are the
  `useState` variables. Its methods are the setters and the two handlers. A ghost log `effects`
  records every toast (`Notify(message, hasError)`) and every clipboard write
  (`WriteClipboard(text)`) in order. Client methods state the properties that span several
  calls: one toast per handler call, the clipboard receiving the last password, and the
  scenarios with the default and the all-cleared flags.

Edge cases of the code that the model keeps:

- The code does not check that the character list is non-empty: `''.charAt(0)` is `''`, so an
  empty list yields an empty password. `CreatePassword` models that case and has no precondition.
- The length is not bounded by the code, only by the slider. The loop runs `max(0, passwordLength)` times.
- Copy tests `password === ''`, so it also fails after a generation that produced an empty
  password. `HandleCopyPassword` follows the test as written.
- The class strings' contents are not modelled, so no disjointness is assumed. Only
  non-emptiness (`Alphabets.NonEmpty`) is used, and only where a result needs it.

## Model

| member | source | states |
|---|---|---|
| CharacterPool.EnabledClasses | src/App.jsx:22-34 | a class is listed exactly when its flag is set; the listed classes are in strictly increasing assembly order (numbers, upper, lower, symbols), so none appears twice; the list is empty exactly when no flag is set |
| CharacterPool.ConcatAppend | src/App.jsx:22-34 | the text of a list of classes joined to another list is the concatenation of the two texts |
| CharacterPool.AppendClass | src/App.jsx:23-34 | appending one enabled class to the list appends that class's string to the character list |
| CharacterPool.ConcatLength | src/App.jsx:22-34 | the concatenated text is as long as the sum of the parts' lengths |
| CharacterPool.ConcatMember | src/App.jsx:22-34 | a character is in the concatenated text if and only if some listed class contains it |
| CharacterPool.PoolMember | src/App.jsx:22-34 | a character is in the pool if and only if some enabled class contains it |
| CharacterPool.PoolEmptiness | src/App.jsx:19-34 | with no flag set the pool is empty; with some flag set and every class non-empty the pool is non-empty |
| CharacterPool.PoolLength | src/App.jsx:22-34 | the pool's length is the sum of the lengths of exactly the enabled classes |
| CharacterPool.AssembleCharacterList | src/App.jsx:22-34 | starting from `''` and appending each enabled class in the fixed order yields exactly the pool |
| Sampling.SampleLength | src/App.jsx:41-47 | with every index in the range of `floor(random * len)`, the password has one character per iteration, or none when the list is empty |
| Sampling.SampleAt | src/App.jsx:44-45 | for a non-empty list, position i of the password is the list's character at the i-th drawn index, which lies in [0, len) |
| Sampling.SampleMembers | src/App.jsx:42-45 | every character of the password is a member of the character list, for any drawn indices |
| Sampling.CreatePassword | src/App.jsx:40-48 | the loop runs max(0, passwordLength) times; every index drawn is in the range `floor(random * len)` can take; the result is the sample for those indices, of length passwordLength when the list is non-empty, and every character is in the list |
| AppComponent.LogAppend | src/App.jsx:50-87 | counting toasts and collecting clipboard writes distribute over appending to the effect log |
| AppComponent.App.constructor | src/App.jsx:8-13 | initial state: empty password, length 24, upper, lower and numbers on, symbols off, nothing notified or copied |
| AppComponent.App.SetPasswordLength | src/App.jsx:107 | the length becomes the slider's value; nothing else changes |
| AppComponent.App.SetIncludeUpperCase | src/App.jsx:118 | only the upper-case flag changes, to the checkbox's value |
| AppComponent.App.SetIncludeLowerCase | src/App.jsx:127 | only the lower-case flag changes, to the checkbox's value |
| AppComponent.App.SetIncludeNumbers | src/App.jsx:136 | only the numbers flag changes, to the checkbox's value |
| AppComponent.App.SetIncludeSymbols | src/App.jsx:145 | only the symbols flag changes, to the checkbox's value |
| AppComponent.App.HandleGeneratePassword | src/App.jsx:18-38 | only `password` and the log may change; with no flag set the password is unchanged and exactly one error toast is logged; otherwise the password is the sample of the current pool for the drawn indices, its characters are pool members, its length is passwordLength when every class is non-empty, and exactly one success toast is logged |
| AppComponent.App.HandleCopyPassword | src/App.jsx:80-87 | an empty password logs exactly one error toast and no clipboard write; otherwise the log gains the clipboard write of the current password followed by one success toast |
| AppComponent.GenerateNotifiesOnce | src/App.jsx:18-37 | a generate call adds exactly one toast, writes nothing to the clipboard and leaves length and flags unchanged |
| AppComponent.CopyNotifiesOnce | src/App.jsx:80-87 | a copy call adds exactly one toast, and the clipboard gains the current password exactly when it is non-empty |
| AppComponent.GenerateThenCopy | src/App.jsx:18-87 | after a generation with some flag set, non-empty classes and length at least 1, the password is non-empty with that length, and the following copy writes exactly that password, then notifies success |
| AppComponent.CopyBeforeGenerate | src/App.jsx:8-82 | in the initial state the pool is numbers, upper-case then lower-case letters, and a copy reports nothing to copy without any clipboard write |
| AppComponent.GenerateWithDefaults | src/App.jsx:8-47 | generating with the initial settings gives a 24-character password whose characters are digits or upper- or lower-case letters |
| AppComponent.GenerateWithNoOptions | src/App.jsx:19-20 | with all four flags cleared, generation keeps the old password, logs only the error toast, and the pool is empty |
| AppComponent.ToggleTwice | src/App.jsx:118-145 | toggling any one of the four flags through its checkbox setter and toggling it back restores the flags and the pool exactly |

## Left out

- JSX rendering, CSS and the `resultRef` ref: presentation only.
- The toast options inside `notify` and the `react-toastify` library: a toast is modelled only as a `Notify(message, hasError)` entry in the ghost log.
- `navigator.clipboard.writeText`: browser I/O, modelled only as a `WriteClipboard(text)` entry in the ghost log. Whether the write succeeds is not modelled, and neither is a write that throws (for instance where `navigator.clipboard` is undefined on an insecure origin), which in the code skips the success toast that follows it.
- `Math.random()` and the floating-point product: the index is chosen nondeterministically within the range `Math.floor(r * len)` can take, so uniformity and independence of the draws are not modelled.
- The contents of `./Character`: that file is not part of this model. The four strings are parameters (`Alphabets`), and results that need them non-empty say so.
- The slider's 4-32 range: the HTML input enforces it, not the code. `passwordLength` is any integer.
- JavaScript's coercion of the slider's string value to a number: `passwordLength` is an integer.
- React's asynchronous state batching: each handler is one sequential step.
- Characters outside the Basic Multilingual Plane: JavaScript strings are sequences of UTF-16 code units, and `.length` and `charAt` count and return code units, so an astral character counts twice and `charAt` can return half of its surrogate pair. A Dafny `char` is a Unicode scalar value, so the model assumes the class strings hold only BMP characters, where a code unit and a scalar value coincide; surrogate halves are not modelled.
