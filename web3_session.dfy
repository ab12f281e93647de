/**
 * The wallet session of Web3Provider (src/app/contexts/Web3Context.tsx):
 * account, provider, isConnecting and selectedWallet, changed by connect,
 * disconnect, setAccount, the accountsChanged handler and checkConnection.
 * The wallet's answers to eth_requestAccounts and eth_accounts are inputs.
 */
module Web3Session {
  import opened Wrappers
  import opened BrowserEnv

  datatype WalletType = MetaMask | Coinbase | WalletConnect

  /** An ethers.BrowserProvider wrapping the injected provider. */
  datatype BrowserProvider = BrowserProvider(over: Injected)

  /** The detection flag connect checks for a wallet type: a truthy isMetaMask, isCoinbaseWallet or isWalletConnect. */
  predicate Detected(ethereum: Injected, wallet: WalletType) {
    match wallet
    case MetaMask => ethereum.isMetaMask.Truthy()
    case Coinbase => ethereum.isCoinbaseWallet.Truthy()
    case WalletConnect => ethereum.isWalletConnect.Truthy()
  }

  /** checkConnection's guess of the wallet type: MetaMask, then Coinbase, then WalletConnect. */
  function DetectWalletType(ethereum: Injected): (w: Option<WalletType>)
    ensures w.Some? ==> Detected(ethereum, w.value)
    ensures w.None? <==> forall t :: !Detected(ethereum, t)
    ensures w == Some(MetaMask) <==> Detected(ethereum, MetaMask)
    ensures w == Some(Coinbase) <==> !Detected(ethereum, MetaMask) && Detected(ethereum, Coinbase)
  {
    if ethereum.isMetaMask.Truthy() then
      assert Detected(ethereum, MetaMask);
      Some(MetaMask)
    else if ethereum.isCoinbaseWallet.Truthy() then
      assert Detected(ethereum, Coinbase);
      Some(Coinbase)
    else if ethereum.isWalletConnect.Truthy() then
      assert Detected(ethereum, WalletConnect);
      Some(WalletConnect)
    else
      NoFlagNoWallet(ethereum);
      None
  }

  /** Without any of the three flags, no wallet type is detected. */
  lemma NoFlagNoWallet(ethereum: Injected)
    requires !ethereum.isMetaMask.Truthy() && !ethereum.isCoinbaseWallet.Truthy() && !ethereum.isWalletConnect.Truthy()
    ensures forall t :: !Detected(ethereum, t)
  {
    forall t ensures !Detected(ethereum, t) {
      match t
      case MetaMask =>
      case Coinbase =>
      case WalletConnect =>
    }
  }

  /** `accounts[0]`: undefined (None) for an empty list. */
  function FirstAccount(accounts: seq<string>): (a: Option<string>)
    ensures a.Some? <==> accounts != []
    ensures a.Some? ==> a.value == accounts[0]
  {
    if accounts == [] then None else Some(accounts[0])
  }

  /** The context state, over the page's fixed window.ethereum. */
  class Web3Provider {
    /** window.ethereum: None when no wallet injected a provider. */
    const ethereum: Option<Injected>
    var account: Option<string>
    var provider: Option<BrowserProvider>
    var isConnecting: bool
    var selectedWallet: Option<WalletType>

    /**
     * A provider always wraps window.ethereum, and a recorded wallet type
     * has a provider and its detection flag.
     */
    ghost predicate Valid()
      reads this
    {
      && (provider.Some? ==> ethereum.Some? && provider.value == BrowserProvider(ethereum.value))
      && (selectedWallet.Some? ==> provider.Some? && Detected(ethereum.value, selectedWallet.value))
    }

    constructor (ethereum: Option<Injected>)
      ensures Valid() && this.ethereum == ethereum
      ensures account.None? && provider.None? && !isConnecting && selectedWallet.None?
    {
      this.ethereum := ethereum;
      account := None;
      provider := None;
      isConnecting := false;
      selectedWallet := None;
    }

    /**
     * connect(walletType), given what eth_requestAccounts answers. Nothing
     * happens without window.ethereum. A wallet whose flag is not set, or a
     * failed request, leaves the session as it was; otherwise the session
     * takes the first account, a provider and the requested wallet type.
     * isConnecting ends false in every case that sets it.
     */
    method Connect(walletType: WalletType, requested: Result<seq<string>, string>)
      requires Valid()
      modifies this
      ensures Valid()
      ensures ethereum.None? ==>
        account == old(account) && provider == old(provider)
        && isConnecting == old(isConnecting) && selectedWallet == old(selectedWallet)
      ensures ethereum.Some? ==> !isConnecting
      ensures ethereum.Some? && (!Detected(ethereum.value, walletType) || requested.Failure?) ==>
        account == old(account) && provider == old(provider) && selectedWallet == old(selectedWallet)
      ensures ethereum.Some? && Detected(ethereum.value, walletType) && requested.Success? ==>
        && account == FirstAccount(requested.value)
        && provider == Some(BrowserProvider(ethereum.value))
        && selectedWallet == Some(walletType)
    {
      if ethereum.None? {
        return;
      }
      var injected := ethereum.value;
      isConnecting := true;
      var detected: bool;
      match walletType {
        case MetaMask => detected := injected.isMetaMask.Truthy();
        case Coinbase => detected := injected.isCoinbaseWallet.Truthy();
        case WalletConnect => detected := injected.isWalletConnect.Truthy();
      }
      if detected {
        var newProvider := BrowserProvider(injected);
        if requested.Success? {
          account := FirstAccount(requested.value);
          provider := Some(newProvider);
          selectedWallet := Some(walletType);
        }
      }
      isConnecting := false;
    }

    /** disconnect: forget the account, the provider and the wallet type. */
    method Disconnect()
      requires Valid()
      modifies this
      ensures Valid()
      ensures account.None? && provider.None? && selectedWallet.None?
      ensures isConnecting == old(isConnecting)
    {
      account := None;
      provider := None;
      selectedWallet := None;
    }

    /** The exposed setAccount. */
    method SetAccount(newAccount: Option<string>)
      requires Valid()
      modifies this
      ensures Valid()
      ensures account == newAccount
      ensures provider == old(provider) && isConnecting == old(isConnecting) && selectedWallet == old(selectedWallet)
    {
      account := newAccount;
    }

    /** The accountsChanged handler, registered only when window.ethereum exists: `accounts[0] || null`. */
    method AccountsChanged(accounts: seq<string>)
      requires Valid() && ethereum.Some?
      modifies this
      ensures Valid()
      ensures account == if accounts != [] && accounts[0] != "" then Some(accounts[0]) else None
      ensures provider == old(provider) && isConnecting == old(isConnecting) && selectedWallet == old(selectedWallet)
    {
      var first := FirstAccount(accounts);
      if first.Some? && first.value != "" {
        account := first;
      } else {
        account := None;
      }
    }

    /**
     * checkConnection, given what eth_accounts answers: with at least one
     * account, take the first, a provider, and the detected wallet type when
     * one is detected; otherwise, or on failure, change nothing.
     */
    method CheckConnection(existing: Result<seq<string>, string>)
      requires Valid()
      modifies this
      ensures Valid()
      ensures isConnecting == old(isConnecting)
      ensures !(ethereum.Some? && existing.Success? && existing.value != []) ==>
        account == old(account) && provider == old(provider) && selectedWallet == old(selectedWallet)
      ensures ethereum.Some? && existing.Success? && existing.value != [] ==>
        && account == Some(existing.value[0])
        && provider == Some(BrowserProvider(ethereum.value))
        && selectedWallet == match DetectWalletType(ethereum.value)
             case Some(w) => Some(w)
             case None => old(selectedWallet)
    {
      if ethereum.None? {
        return;
      }
      var injected := ethereum.value;
      var newProvider := BrowserProvider(injected);
      if existing.Failure? {
        return;
      }
      var accounts := existing.value;
      if |accounts| > 0 {
        account := Some(accounts[0]);
        provider := Some(newProvider);
        if injected.isMetaMask.Truthy() {
          selectedWallet := Some(MetaMask);
        } else if injected.isCoinbaseWallet.Truthy() {
          selectedWallet := Some(Coinbase);
        } else if injected.isWalletConnect.Truthy() {
          selectedWallet := Some(WalletConnect);
        }
      }
    }
  }

  /** A connect followed by disconnect leaves no session, whatever the wallet answered. */
  method ConnectThenDisconnect(session: Web3Provider, walletType: WalletType, requested: Result<seq<string>, string>)
    requires session.Valid()
    modifies session
    ensures session.Valid()
    ensures session.account.None? && session.provider.None? && session.selectedWallet.None?
    ensures session.ethereum.Some? ==> !session.isConnecting
  {
    session.Connect(walletType, requested);
    session.Disconnect();
  }
}
