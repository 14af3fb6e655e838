/** What the preload script sees of a page: its forms, its inputs, and whether a login or a challenge shows. */
module CredentialPage {
  import opened Wrappers

  datatype Kind = HiddenField | PasswordField | EmailField | OtherField

  /** An input; the last five fields say what its autocomplete tokens and its hints match. */
  datatype Input = Input(
    kind: Kind,
    disabled: bool,
    oneTimeCode: bool,
    usernameToken: bool,
    challengeHint: bool,
    usernameHint: bool,
    codeHint: bool)

  /** A form; `contextHint` holds if its own text and attributes speak of a challenge. */
  datatype Form = Form(inputs: seq<Input>, contextHint: bool)

  /** A page at one moment; `inputs` are all inputs of the document, in forms or not. */
  datatype Page = Page(https: bool, origin: string, forms: seq<Form>, inputs: seq<Input>, contextHint: bool)

  datatype PageState = PageState(origin: string, hasLoginForm: bool, hasChallengeForm: bool)

  predicate Visible(i: Input) {
    !i.disabled && i.kind != HiddenField
  }

  predicate IsChallengeInput(i: Input) {
    Visible(i) && (
      i.oneTimeCode || i.challengeHint ||
      (!i.usernameToken && i.kind != EmailField && !i.usernameHint && i.codeHint))
  }

  predicate HasUsernameEvidence(i: Input) {
    Visible(i) && !IsChallengeInput(i) && (i.usernameToken || i.kind == EmailField || i.usernameHint)
  }

  /** The positions of the visible password inputs. */
  function VisiblePasswords(inputs: seq<Input>): (r: seq<nat>)
    ensures forall k :: k in r <==> 0 <= k < |inputs| && inputs[k].kind == PasswordField && Visible(inputs[k])
  {
    if inputs == [] then []
    else
      var last := |inputs| - 1;
      var before := VisiblePasswords(inputs[..last]);
      if inputs[last].kind == PasswordField && Visible(inputs[last]) then before + [last] else before
  }

  predicate HasUsernameBeside(form: Form, password: nat) {
    exists k :: 0 <= k < |form.inputs| && k != password && HasUsernameEvidence(form.inputs[k])
  }

  predicate IsChallengeForm(form: Form, pageHint: bool) {
    || (exists i :: i in form.inputs && IsChallengeInput(i))
    || form.contextHint
    || (var passwords := VisiblePasswords(form.inputs);
        |passwords| == 1 && !HasUsernameBeside(form, passwords[0]) && pageHint)
  }

  predicate PageHasChallenge(page: Page) {
    || (exists f :: f in page.forms && IsChallengeForm(f, page.contextHint))
    || (exists i :: i in page.inputs && IsChallengeInput(i))
    || page.contextHint
  }

  function CredentialState(page: Page): Option<PageState> {
    if !page.https then None
    else Some(PageState(
      page.origin,
      exists f :: f in page.forms && !IsChallengeForm(f, page.contextHint) && VisiblePasswords(f.inputs) != [],
      PageHasChallenge(page)))
  }

  /** The page is secure, at this origin, and shows neither a login nor a challenge. */
  predicate Clean(page: Page, origin: string) {
    var state := CredentialState(page);
    state.Some? && state.value.origin == origin && !state.value.hasLoginForm && !state.value.hasChallengeForm
  }

  predicate ShowsPassword(form: Form) {
    exists i :: i in form.inputs && i.kind == PasswordField && Visible(i)
  }

  lemma PasswordsShow(form: Form)
    ensures VisiblePasswords(form.inputs) != [] <==> ShowsPassword(form)
  {
    var passwords := VisiblePasswords(form.inputs);
    assert passwords != [] ==> passwords[0] in passwords;
    if ShowsPassword(form) {
      var i :| i in form.inputs && i.kind == PasswordField && Visible(i);
      var k :| 0 <= k < |form.inputs| && form.inputs[k] == i;
      assert k in passwords;
    }
  }

  /** The input asks for nothing that proves who the user is beyond a name and a password: it cannot be seen, or
      nothing about it speaks of a code, or it is a user name field whose hint alone mentions one. */
  predicate Innocent(i: Input) {
    || i.disabled || i.kind == HiddenField
    || (!i.oneTimeCode && !i.challengeHint &&
        (!i.codeHint || i.usernameToken || i.usernameHint || i.kind == EmailField))
  }

  /** Clean means: the page is secure and at this origin, no form holds a password input that can be used, whatever
      kind of form it is, and nothing on the page looks like a challenge. */
  lemma CleanMeansNoSecrets(page: Page, origin: string)
    ensures Clean(page, origin) <==>
      && page.https && page.origin == origin && !page.contextHint
      && (forall f :: f in page.forms ==>
            !f.contextHint && forall i :: i in f.inputs ==> Innocent(i) && (i.kind == PasswordField ==> i.disabled))
      && (forall i :: i in page.inputs ==> Innocent(i))
  {
    forall f | f in page.forms ensures VisiblePasswords(f.inputs) != [] <==> ShowsPassword(f) { PasswordsShow(f); }
  }

  lemma {:induction false} PasswordsIncrease(inputs: seq<Input>)
    ensures forall j, k :: 0 <= j < k < |VisiblePasswords(inputs)| ==>
      VisiblePasswords(inputs)[j] < VisiblePasswords(inputs)[k]
  {
    if inputs != [] {
      var front := inputs[..|inputs| - 1];
      PasswordsIncrease(front);
      var before := VisiblePasswords(front);
      forall k | 0 <= k < |before| ensures before[k] < |front| { assert before[k] in before; }
    }
  }

  /** A password input that can be used. */
  predicate PasswordAt(f: Form, k: nat) {
    k < |f.inputs| && f.inputs[k].kind == PasswordField && !f.inputs[k].disabled
  }

  /** An input that can be used and asks for a user name. */
  predicate UserNameAt(f: Form, k: nat) {
    && k < |f.inputs| && !f.inputs[k].disabled && f.inputs[k].kind != HiddenField
    && (f.inputs[k].usernameToken || f.inputs[k].usernameHint || f.inputs[k].kind == EmailField)
  }

  /** A login form holds a password and nothing of a challenge; on a page that speaks of one, a password alone is
      not enough: the form has a second password or a user name as well. */
  ghost predicate IsLogin(f: Form, pageHint: bool) {
    && !f.contextHint && (forall i :: i in f.inputs ==> Innocent(i))
    && exists k: nat ::
         PasswordAt(f, k) && (pageHint ==> exists j: nat :: j != k && (PasswordAt(f, j) || UserNameAt(f, j)))
  }

  lemma PasswordsAt(f: Form)
    ensures forall k: nat :: k in VisiblePasswords(f.inputs) <==> PasswordAt(f, k)
  {
  }

  lemma OnePassword(f: Form)
    ensures |VisiblePasswords(f.inputs)| == 1 <==>
      exists k: nat :: PasswordAt(f, k) && forall j: nat :: PasswordAt(f, j) ==> j == k
  {
    var passwords := VisiblePasswords(f.inputs);
    PasswordsIncrease(f.inputs);
    PasswordsAt(f);
    hide VisiblePasswords, PasswordAt;
    if |passwords| > 1 {
      assert passwords[0] in passwords && passwords[1] in passwords && passwords[0] != passwords[1];
    } else if |passwords| == 1 {
      assert passwords[0] in passwords;
    }
  }

  lemma LoginIs(f: Form, pageHint: bool)
    ensures !IsChallengeForm(f, pageHint) && VisiblePasswords(f.inputs) != [] <==> IsLogin(f, pageHint)
  {
    hide VisiblePasswords, IsChallengeInput, Innocent, PasswordAt, UserNameAt, HasUsernameBeside;
    var passwords := VisiblePasswords(f.inputs);
    forall i: Input ensures IsChallengeInput(i) <==> !Innocent(i) { InnocentIs(i); }
    PasswordsAt(f);
    assert passwords != [] ==> passwords[0] in passwords;
    if passwords != [] && !f.contextHint && forall i :: i in f.inputs ==> Innocent(i) {
      if |passwords| > 1 {
        PasswordsIncrease(f.inputs);
        assert passwords[1] in passwords && passwords[0] != passwords[1];
      } else {
        OnePassword(f);
        BesideIs(f, passwords[0]);
      }
    }
  }

  lemma InnocentIs(i: Input)
    ensures IsChallengeInput(i) <==> !Innocent(i)
  {
  }

  lemma BesideIs(f: Form, k: nat)
    requires forall i :: i in f.inputs ==> Innocent(i)
    ensures HasUsernameBeside(f, k) <==> exists j: nat :: j != k && UserNameAt(f, j)
  {
    hide Innocent, IsChallengeInput;
    forall j: nat | j < |f.inputs| ensures HasUsernameEvidence(f.inputs[j]) <==> UserNameAt(f, j) {
      assert f.inputs[j] in f.inputs;
      InnocentIs(f.inputs[j]);
    }
  }

  /** What the page tells about itself. */
  lemma PageStateIs(page: Page, state: PageState)
    ensures CredentialState(page) == Some(state) <==>
      && page.https && state.origin == page.origin
      && (state.hasLoginForm <==> exists f :: f in page.forms && IsLogin(f, page.contextHint))
      && (state.hasChallengeForm <==>
            || page.contextHint
            || (exists f :: f in page.forms && (f.contextHint || exists i :: i in f.inputs && !Innocent(i)))
            || (exists i :: i in page.inputs && !Innocent(i)))
  {
    forall f | f in page.forms
      ensures !IsChallengeForm(f, page.contextHint) && VisiblePasswords(f.inputs) != [] <==>
        IsLogin(f, page.contextHint)
    {
      LoginIs(f, page.contextHint);
    }
    hide IsLogin, Innocent, IsChallengeInput, VisiblePasswords;
    forall i: Input ensures IsChallengeInput(i) <==> !Innocent(i) { InnocentIs(i); }
  }
}
