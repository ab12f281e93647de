/**
 * The profile form of the register page (src/app/register/page.tsx):
 * nickname validation, the favourite-chain toggle, the chain summaries, the
 * save button and handleSave.
 */
module Register {
  import opened Wrappers
  import opened Js
  import opened ApiUtils

  datatype Blockchain = Blockchain(id: string, name: string, symbol: string, color: string)

  /** The chains the dropdown offers, in display order. */
  const Blockchains: seq<Blockchain> := [
    Blockchain("bitcoin", "Bitcoin", "BTC", "bg-orange-500"),
    Blockchain("ethereum", "Ethereum", "ETH", "bg-blue-500"),
    Blockchain("solana", "Solana", "SOL", "bg-green-500"),
    Blockchain("binance", "BNB Chain", "BNB", "bg-yellow-500"),
    Blockchain("base", "Base", "BASE", "bg-blue-600"),
    Blockchain("arbitrum", "Arbitrum", "ARB", "bg-blue-800"),
    Blockchain("polygon", "Polygon", "MATIC", "bg-purple-500"),
    Blockchain("optimism", "Optimism", "OP", "bg-red-600"),
    Blockchain("avalanche", "Avalanche", "AVAX", "bg-red-500"),
    Blockchain("cosmos", "Cosmos", "ATOM", "bg-purple-800"),
    Blockchain("sui", "Sui", "SUI", "bg-blue-400"),
    Blockchain("aptos", "Aptos", "APT", "bg-indigo-500"),
    Blockchain("linea", "Linea", "LINEA", "bg-green-700"),
    Blockchain("starknet", "Starknet", "STRK", "bg-gray-700"),
    Blockchain("cardano", "Cardano", "ADA", "bg-blue-700"),
    Blockchain("polkadot", "Polkadot", "DOT", "bg-pink-500")
  ]

  /** blockchains.find(b => b.id === id): the first catalogue entry with that id. */
  function FindChain(catalogue: seq<Blockchain>, id: string): (r: Option<Blockchain>)
    ensures r.None? <==> forall k :: 0 <= k < |catalogue| ==> catalogue[k].id != id
    ensures r.Some? ==> r.value.id == id
    ensures r.Some? ==>
      exists k :: 0 <= k < |catalogue| && catalogue[k] == r.value && (forall j :: 0 <= j < k ==> catalogue[j].id != id)
  {
    if catalogue == [] then None
    else if catalogue[0].id == id then
      assert catalogue[0] == catalogue[0];
      Some(catalogue[0])
    else
      var r := FindChain(catalogue[1..], id);
      assert forall k :: 1 <= k < |catalogue| ==> catalogue[k] == catalogue[1..][k - 1];
      r
  }

  const NicknameRequired := "Nickname is required"
  const NicknameTooShort := "Nickname must be at least 3 characters"
  const NicknameTooLong := "Nickname must be less than 20 characters"
  const BlockchainsRequired := "Please select at least one favorite blockchain"

  /** The form's error state: one optional message per field. */
  datatype FormErrors = FormErrors(nickname: Option<string>, blockchains: Option<string>, general: Option<string>)

  const NoErrors := FormErrors(None, None, None)

  /**
   * The one nickname message validateForm produces, judged on the trimmed
   * nickname: "required" before "too short" before "too long". A trimmed
   * length of exactly 20 is accepted.
   */
  function NicknameError(nickname: string): (e: Option<string>)
    ensures e.None? <==> 3 <= |Trim(nickname)| <= 20
    ensures Trim(nickname) == [] <==> e == Some(NicknameRequired)
    ensures 1 <= |Trim(nickname)| < 3 <==> e == Some(NicknameTooShort)
    ensures |Trim(nickname)| > 20 <==> e == Some(NicknameTooLong)
  {
    var t := Trim(nickname);
    if t == [] then Some(NicknameRequired)
    else if |t| < 3 then Some(NicknameTooShort)
    else if |t| > 20 then Some(NicknameTooLong)
    else None
  }

  /** What validateForm accepts. */
  predicate FormIsValid(nickname: string, selected: seq<string>) {
    3 <= |Trim(nickname)| <= 20 && selected != []
  }

  /** The errors object validateForm writes: no general message, nickname and chain messages as judged. */
  function ValidationErrors(nickname: string, selected: seq<string>): (e: FormErrors)
    ensures e.nickname == NicknameError(nickname)
    ensures e.blockchains == if selected == [] then Some(BlockchainsRequired) else None
    ensures e.general == None
    ensures e == NoErrors <==> FormIsValid(nickname, selected)
  {
    FormErrors(NicknameError(nickname), if selected == [] then Some(BlockchainsRequired) else None, None)
  }

  /** The message shown when handleSave catches an error: its message, or a default when empty. */
  function GeneralMessage(message: string): string {
    if message != "" then message else "Failed to create profile. Please try again."
  }

  const WalletNotConnected := "Wallet not connected"
  const NoTokenReceived := "Registration failed - no token received"

  ghost predicate NoDuplicates(s: seq<string>) {
    forall i, j :: 0 <= i < j < |s| ==> s[i] != s[j]
  }

  /** prev.filter(x => x !== id). */
  function Without(s: seq<string>, id: string): (r: seq<string>)
    ensures forall x :: x in r <==> x in s && x != id
    ensures |r| <= |s|
  {
    if s == [] then []
    else
      var rest := Without(s[1..], id);
      assert forall x :: x in s <==> x == s[0] || x in s[1..];
      if s[0] == id then rest else [s[0]] + rest
  }

  /** The dropdown click: remove a selected chain, append an unselected one. */
  function Toggle(selected: seq<string>, id: string): seq<string> {
    if id in selected then Without(selected, id) else selected + [id]
  }

  /** After the toggle, a chain is selected exactly when it was selected or is the toggled one, but not both. */
  lemma ToggleMembership(selected: seq<string>, id: string, x: string)
    ensures x in Toggle(selected, id) <==> (x in selected) != (x == id)
  {
  }

  lemma {:induction false} WithoutAbsent(s: seq<string>, id: string)
    requires id !in s
    ensures Without(s, id) == s
  {
    if s != [] {
      WithoutAbsent(s[1..], id);
      assert s == [s[0]] + s[1..];
    }
  }

  /** Removing the one occurrence at index i leaves the others in their order. */
  lemma {:induction false} WithoutOne(s: seq<string>, id: string, i: nat)
    requires NoDuplicates(s) && i < |s| && s[i] == id
    ensures Without(s, id) == s[..i] + s[i + 1..]
  {
    if i == 0 {
      assert id !in s[1..] by {
        forall k | 0 <= k < |s[1..]| ensures s[1..][k] != id {
          assert s[k + 1] != s[0];
        }
      }
      WithoutAbsent(s[1..], id);
    } else {
      WithoutOne(s[1..], id, i - 1);
      assert s[..i] == [s[0]] + s[1..][..i - 1];
      assert s[i + 1..] == s[1..][i..];
    }
  }

  /** Toggling a selected chain removes it and keeps the other chains in their order. */
  lemma ToggleRemoves(selected: seq<string>, i: nat)
    requires NoDuplicates(selected) && i < |selected|
    ensures Toggle(selected, selected[i]) == selected[..i] + selected[i + 1..]
  {
    WithoutOne(selected, selected[i], i);
  }

  /** Toggling an unselected chain appends it at the end. */
  lemma ToggleAppends(selected: seq<string>, id: string)
    requires id !in selected
    ensures Toggle(selected, id) == selected + [id]
  {
  }

  /** Removing one element keeps a list free of duplicates. */
  lemma RemoveAtKeepsNoDuplicates(s: seq<string>, i: nat)
    requires NoDuplicates(s) && i < |s|
    ensures NoDuplicates(s[..i] + s[i + 1..])
  {
    var r := s[..i] + s[i + 1..];
    assert forall k :: 0 <= k < i ==> r[k] == s[k];
    assert forall k :: i <= k < |r| ==> r[k] == s[k + 1];
  }

  /** Appending an absent element keeps a list free of duplicates. */
  lemma AppendKeepsNoDuplicates(s: seq<string>, id: string)
    requires NoDuplicates(s) && id !in s
    ensures NoDuplicates(s + [id])
  {
    var r := s + [id];
    assert forall k :: 0 <= k < |s| ==> r[k] == s[k] && s[k] != id;
  }

  /** The toggle never introduces a duplicate. */
  lemma ToggleKeepsNoDuplicates(selected: seq<string>, id: string)
    requires NoDuplicates(selected)
    ensures NoDuplicates(Toggle(selected, id))
  {
    if id in selected {
      var i :| 0 <= i < |selected| && selected[i] == id;
      ToggleRemoves(selected, i);
      RemoveAtKeepsNoDuplicates(selected, i);
    } else {
      AppendKeepsNoDuplicates(selected, id);
    }
  }

  lemma {:induction false} WithoutAppended(s: seq<string>, id: string)
    requires id !in s
    ensures Without(s + [id], id) == s
  {
    if s == [] {
      assert Without([id], id) == Without([id][1..], id);
    } else {
      assert (s + [id])[1..] == s[1..] + [id];
      WithoutAppended(s[1..], id);
      assert s == [s[0]] + s[1..];
    }
  }

  /** Toggling an unselected chain twice gives back the original list. */
  lemma ToggleTwiceRestores(selected: seq<string>, id: string)
    requires id !in selected
    ensures Toggle(Toggle(selected, id), id) == selected
  {
    WithoutAppended(selected, id);
  }

  /**
   * Toggling a selected chain twice moves it to the end: the list comes back
   * unchanged exactly when that chain was already last.
   */
  lemma ToggleTwiceMovesToEnd(selected: seq<string>, i: nat)
    requires NoDuplicates(selected) && i < |selected|
    ensures Toggle(Toggle(selected, selected[i]), selected[i]) == selected[..i] + selected[i + 1..] + [selected[i]]
    ensures Toggle(Toggle(selected, selected[i]), selected[i]) == selected <==> i == |selected| - 1
  {
    var id := selected[i];
    ToggleRemoves(selected, i);
    var once := selected[..i] + selected[i + 1..];
    assert id !in once by {
      forall k | 0 <= k < |once| ensures once[k] != id {
        var k' := if k < i then k else k + 1;
        assert once[k] == selected[k'];
      }
    }
    var twice := once + [id];
    if i == |selected| - 1 {
      assert twice == selected;
    } else {
      assert twice[i] == selected[i + 1] != selected[i];
    }
  }

  /** A chip row: placeholder text when nothing is selected, else the first chains and a "+N more" count. */
  datatype ChainSummary = Placeholder(text: string) | Chips(shown: seq<string>, more: Option<nat>)

  /** The first `limit` selected chains, and how many more there are when that is not all. */
  function Summary(selected: seq<string>, limit: nat, placeholder: string): (r: ChainSummary)
    ensures r.Placeholder? <==> selected == []
    ensures r.Placeholder? ==> r.text == placeholder
    ensures r.Chips? ==> r.shown + Drop(selected, limit) == selected
    ensures r.Chips? ==> (r.more.Some? <==> |selected| > limit)
    ensures r.Chips? && r.more.Some? ==> |r.shown| == limit && |r.shown| + r.more.value == |selected|
    ensures r.Chips? && r.more.None? ==> r.shown == selected
  {
    if selected == [] then Placeholder(placeholder)
    else Chips(Take(selected, limit), if |selected| > limit then Some(|selected| - limit) else None)
  }

  /** The dropdown button: two chains, then "+(n-2) more". */
  function DropdownSummary(selected: seq<string>): ChainSummary {
    Summary(selected, 2, "Select your favorite blockchains")
  }

  /** The profile preview: three chains, then "+(n-3) more". */
  function PreviewSummary(selected: seq<string>): ChainSummary {
    Summary(selected, 3, "No blockchains selected")
  }

  /** The preview card's name line: the nickname as typed, or a placeholder while it is empty. */
  function PreviewName(nickname: string): (name: string)
    ensures nickname != "" ==> name == nickname
    ensures nickname == "" ==> name == "Your Nickname"
  {
    if nickname != "" then nickname else "Your Nickname"
  }

  /** The text of the "+N more" badge: a plus sign, the count's numeral, " more"; the count reads back. */
  function MoreLabel(count: nat): (badge: string)
    ensures |badge| >= 7 && badge[0] == '+' && badge[|badge| - 5..] == " more"
    ensures forall k :: 1 <= k < |badge| - 5 ==> IsDigit(badge[k])
    ensures DigitsValue(badge[1..|badge| - 5]) == count
  {
    var badge := "+" + NatToString(count) + " more";
    assert badge[1..|badge| - 5] == NatToString(count);
    NatToStringRoundTrip(count);
    badge
  }

  /** Every selected id is one the dropdown offers, as the dropdown only lists the catalogue. */
  ghost predicate InCatalogue(selected: seq<string>) {
    forall i :: 0 <= i < |selected| ==> exists k :: 0 <= k < |Blockchains| && Blockchains[k].id == selected[i]
  }

  /** Clicking a catalogue chain keeps every selected id in the catalogue. */
  lemma ToggleKeepsInCatalogue(selected: seq<string>, k: nat)
    requires InCatalogue(selected) && k < |Blockchains|
    ensures InCatalogue(Toggle(selected, Blockchains[k].id))
  {
    var t := Toggle(selected, Blockchains[k].id);
    forall i | 0 <= i < |t| ensures exists j :: 0 <= j < |Blockchains| && Blockchains[j].id == t[i] {
      ToggleMembership(selected, Blockchains[k].id, t[i]);
      if t[i] != Blockchains[k].id {
        var m :| 0 <= m < |selected| && selected[m] == t[i];
        assert exists j :: 0 <= j < |Blockchains| && Blockchains[j].id == selected[m];
      }
    }
  }

  /** `blockchains.find` for each chip of a summary: what it shows for each shown id. */
  function ShownChains(summary: ChainSummary): seq<Option<Blockchain>> {
    if summary.Placeholder? then []
    else seq(|summary.shown|, k requires 0 <= k < |summary.shown| => FindChain(Blockchains, summary.shown[k]))
  }

  /** Each chip of the summary finds the catalogue chain with its id. */
  ghost predicate ChipsFound(summary: ChainSummary) {
    summary.Chips? ==>
      |ShownChains(summary)| == |summary.shown| &&
      forall i :: 0 <= i < |summary.shown| ==> ShownChains(summary)[i].Some? && ShownChains(summary)[i].value.id == summary.shown[i]
  }

  /**
   * With a selection drawn from the catalogue, every chip of the dropdown and
   * of the preview finds its chain, so each shows that chain's name and symbol.
   */
  lemma ChipsFindTheirChains(selected: seq<string>)
    requires InCatalogue(selected)
    ensures ChipsFound(DropdownSummary(selected)) && ChipsFound(PreviewSummary(selected))
  {
    forall limit: nat, i | 0 <= i < |Take(selected, limit)|
      ensures FindChain(Blockchains, Take(selected, limit)[i]).Some?
    {
      assert Take(selected, limit)[i] == selected[i];
      var k :| 0 <= k < |Blockchains| && Blockchains[k].id == selected[i];
    }
  }

  /** What handleSave leaves behind: the errors, the data it submitted, where it navigated, localStorage. */
  datatype SaveResult = SaveResult(
    errors: FormErrors,
    submitted: Option<RegistrationData>,
    navigateTo: Option<string>,
    storage: map<string, string>)

  /**
   * handleSave as a function of the render-time errors, the form, the
   * account, the reply of authApi.register and localStorage. validateForm
   * runs first; a caught error is merged into the render-time errors.
   */
  function SaveOutcome(
    rendered: FormErrors, nickname: string, selected: seq<string>, avatar: string, banner: string,
    account: Option<string>, reply: Result<string, string>, storage: map<string, string>): SaveResult
  {
    if !FormIsValid(nickname, selected) then
      SaveResult(ValidationErrors(nickname, selected), None, None, storage)
    else if !Truthy(account) then
      SaveResult(rendered.(general := Some(GeneralMessage(WalletNotConnected))), None, None, storage)
    else
      var data := RegistrationData(Trim(nickname), account.value, avatar, banner, selected);
      match reply
      case Failure(message) =>
        SaveResult(rendered.(general := Some(GeneralMessage(message))), Some(data), None, storage)
      case Success(token) =>
        if token != "" then SaveResult(ValidationErrors(nickname, selected), Some(data), Some("/profile"), storage[TokenKey := token])
        else SaveResult(rendered.(general := Some(GeneralMessage(NoTokenReceived))), Some(data), None, storage)
  }

  /**
   * What handleSave promises. An invalid form only shows its errors. A valid
   * one is submitted exactly when the account is truthy, with the trimmed
   * nickname. Only a non-empty token is saved, and only that navigates to
   * /profile, with no errors left. Every other outcome of a valid form
   * reports one general message over the render-time errors.
   */
  lemma SaveOutcomeSpec(
    rendered: FormErrors, nickname: string, selected: seq<string>, avatar: string, banner: string,
    account: Option<string>, reply: Result<string, string>, storage: map<string, string>)
    ensures var r := SaveOutcome(rendered, nickname, selected, avatar, banner, account, reply, storage);
      && (!FormIsValid(nickname, selected) ==>
            r.submitted.None? && r.navigateTo.None? && r.storage == storage && r.errors == ValidationErrors(nickname, selected))
      && (r.submitted.Some? <==> FormIsValid(nickname, selected) && Truthy(account))
      && (r.submitted.Some? ==> r.submitted.value == RegistrationData(Trim(nickname), account.value, avatar, banner, selected))
      && (r.navigateTo.Some? <==> r.submitted.Some? && reply.Success? && reply.value != "")
      && (r.navigateTo.Some? ==>
            r.navigateTo.value == "/profile" && r.errors == NoErrors && r.storage == storage[TokenKey := reply.value])
      && (r.navigateTo.None? ==> r.storage == storage)
      && (FormIsValid(nickname, selected) && !Truthy(account) ==> r.errors == rendered.(general := Some(WalletNotConnected)))
      && (r.submitted.Some? && reply.Failure? ==> r.errors == rendered.(general := Some(GeneralMessage(reply.error))))
      && (r.submitted.Some? && reply == Success("") ==> r.errors == rendered.(general := Some(NoTokenReceived)))
  {
    assert WalletNotConnected[0] == 'W' && NoTokenReceived[0] == 'R';
  }

  /** The register page's form state. */
  class RegisterForm {
    var nickname: string
    var selectedBlockchains: seq<string>
    var selectedAvatar: string
    var selectedBanner: string
    var isSaving: bool
    var errors: FormErrors

    constructor ()
      ensures nickname == "" && selectedBlockchains == []
      ensures selectedAvatar == "1" && selectedBanner == "1"
      ensures !isSaving && errors == NoErrors
    {
      nickname := "";
      selectedBlockchains := [];
      selectedAvatar := "1";
      selectedBanner := "1";
      isSaving := false;
      errors := NoErrors;
    }

    /** The nickname input's onChange. */
    method SetNickname(value: string)
      modifies this`nickname
      ensures nickname == value
    {
      nickname := value;
    }

    /** A click on a chain in the dropdown. */
    method ToggleChain(id: string)
      modifies this`selectedBlockchains
      ensures selectedBlockchains == Toggle(old(selectedBlockchains), id)
    {
      var isSelected := id in selectedBlockchains;
      if isSelected {
        selectedBlockchains := Without(selectedBlockchains, id);
      } else {
        selectedBlockchains := selectedBlockchains + [id];
      }
    }

    /** The save button's `disabled`. */
    predicate SaveDisabled()
      reads this
    {
      isSaving || Trim(nickname) == [] || selectedBlockchains == []
    }

    /**
     * validateForm: builds the errors field by field, writes them to the
     * errors state and reports whether there were none.
     */
    method ValidateForm() returns (ok: bool)
      modifies this`errors
      ensures errors == ValidationErrors(nickname, selectedBlockchains)
      ensures ok <==> FormIsValid(nickname, selectedBlockchains)
    {
      var trimmed := Trim(nickname);
      var nicknameError: Option<string> := None;
      var blockchainsError: Option<string> := None;
      if trimmed == [] {
        nicknameError := Some(NicknameRequired);
      } else if |trimmed| < 3 {
        nicknameError := Some(NicknameTooShort);
      } else if |trimmed| > 20 {
        nicknameError := Some(NicknameTooLong);
      }
      if |selectedBlockchains| == 0 {
        blockchainsError := Some(BlockchainsRequired);
      }
      errors := FormErrors(nicknameError, blockchainsError, None);
      ok := nicknameError.None? && blockchainsError.None?;
    }

    /**
     * handleSave, given the connected account and what authApi.register
     * answers (the token of the reply, empty when absent, or the message of
     * the error it throws): the errors, the data submitted, the navigation
     * and the storage are those of SaveOutcome over the errors the page
     * rendered with, and saving ends once it has begun.
     */
    method HandleSave(account: Option<string>, reply: Result<string, string>, store: TokenStore)
      returns (submitted: Option<RegistrationData>, navigateTo: Option<string>)
      modifies this`errors, this`isSaving, store
      ensures SaveResult(errors, submitted, navigateTo, store.storage) ==
        SaveOutcome(old(errors), nickname, selectedBlockchains, selectedAvatar, selectedBanner, account, reply, old(store.storage))
      ensures isSaving == if FormIsValid(nickname, selectedBlockchains) then false else old(isSaving)
    {
      var renderedErrors := errors;
      submitted, navigateTo := None, None;
      var ok := ValidateForm();
      if !ok {
        return;
      }
      isSaving := true;
      if !(account.Some? && account.value != "") {
        errors := renderedErrors.(general := Some(GeneralMessage(WalletNotConnected)));
      } else {
        submitted := Some(RegistrationData(Trim(nickname), account.value, selectedAvatar, selectedBanner, selectedBlockchains));
        match reply {
          case Failure(message) =>
            errors := renderedErrors.(general := Some(GeneralMessage(message)));
          case Success(token) =>
            if token != "" {
              store.SaveToken(token);
              navigateTo := Some("/profile");
            } else {
              errors := renderedErrors.(general := Some(GeneralMessage(NoTokenReceived)));
            }
        }
      }
      isSaving := false;
    }
  }

  /** A form validateForm accepts, while no save is under way, has its save button enabled. */
  lemma ValidFormCanBeSaved(f: RegisterForm)
    requires !f.isSaving && FormIsValid(f.nickname, f.selectedBlockchains)
    ensures !f.SaveDisabled()
  {
  }

  /** A disabled save button, while no save is under way, means validateForm would reject the form. */
  lemma DisabledFormIsInvalid(f: RegisterForm)
    requires !f.isSaving && f.SaveDisabled()
    ensures !FormIsValid(f.nickname, f.selectedBlockchains)
  {
  }

  /** While a save is under way the button is disabled, whatever the form holds. */
  lemma SavingDisablesButton(f: RegisterForm)
    requires f.isSaving
    ensures f.SaveDisabled()
  {
  }

  /**
   * The save button is enabled for a 1-2 character nickname, which
   * validateForm then rejects: for instance "ab" with one chain.
   */
  lemma EnabledButInvalid(f: RegisterForm)
    requires !f.isSaving && f.nickname == "ab" && f.selectedBlockchains == ["bitcoin"]
    ensures !f.SaveDisabled()
    ensures NicknameError(f.nickname) == Some(NicknameTooShort)
    ensures !FormIsValid(f.nickname, f.selectedBlockchains)
  {
    assert !IsWhitespace('a') && !IsWhitespace('b');
    assert TrimStart("ab") == "ab";
    assert TrimEnd("ab") == "ab";
  }
}
