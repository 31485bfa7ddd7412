/** The wallet service: which of the wallet-derivation routines is used to
    set the wallet up, and the plaintext mnemonic kept in browser storage. */
module WalletServices {
  import opened Wrappers
  import opened BrowserStorage
  import opened Http

  const MnemonicKey := "HC_BCH_MNEMONIC"
  const SetWalletUrl := "/auth/set-wallet"

  /** The wallet record a login response carries. */
  datatype ServerWallet = ServerWallet(mnemonicEncrypted: string)

  /** A login or signup success response, as far as setup reads it: the
      attached wallet (`None` when it is absent or falsy) and the password. */
  datatype AuthPayload = AuthPayload(wallet: Option<ServerWallet>, password: Option<string>)

  /** A wallet and the two forms of its recovery phrase. */
  datatype SimpleWallet = SimpleWallet(mnemonic: string, mnemonicEncrypted: string)

  /** The call made to the wallet library, with its arguments. The derived
      wallet is whatever that call returns; the library is not part of this
      model, so the call stands for its result. */
  datatype Derivation =
    | FromEncryptedPhrase(mnemonicEncrypted: string, password: Option<string>)
    | NewWallet(password: Option<string>)
    | FromDecryptedPhrase(mnemonic: string)

  /** The branch selection of wallet setup: the derivation call made, if any.
      `token` is what the authentication service's `getToken` answers and
      `saved` the mnemonic found in storage when the service was built. At
      most one call is made, and `None` means none is: the wallet stays
      undefined. */
  function SetupPath(payload: Option<AuthPayload>, token: Option<string>, saved: Option<string>): (r: Option<Derivation>)
    ensures payload.Some? && payload.value.wallet.Some? ==>
      r == Some(FromEncryptedPhrase(payload.value.wallet.value.mnemonicEncrypted, payload.value.password))
    ensures payload.Some? && payload.value.wallet.None? ==> r == Some(NewWallet(payload.value.password))
    ensures payload.None? ==> (r.Some? <==> Truthy(token) && Truthy(saved))
    ensures payload.None? && r.Some? ==> r == Some(FromDecryptedPhrase(saved.value))
  {
    match payload
    case Some(p) =>
      if p.wallet.Some? then Some(FromEncryptedPhrase(p.wallet.value.mnemonicEncrypted, p.password))
      else Some(NewWallet(p.password))
    case None =>
      if Truthy(token) && Truthy(saved) then Some(FromDecryptedPhrase(saved.value)) else None
  }

  /** A fresh wallet is generated only on signup (a payload without a
      wallet), and a payload never leads to the stored mnemonic. */
  lemma SetupPathByOrigin(payload: Option<AuthPayload>, token: Option<string>, saved: Option<string>)
    ensures var r := SetupPath(payload, token, saved);
      && ((r.Some? && r.value.NewWallet?) <==> (payload.Some? && payload.value.wallet.None?))
      && ((r.Some? && r.value.FromEncryptedPhrase?) <==> (payload.Some? && payload.value.wallet.Some?))
      && ((r.Some? && r.value.FromDecryptedPhrase?) <==> (payload.None? && Truthy(token) && Truthy(saved)))
  {
  }

  /** What `getWalletMnemonic` answers: the stored mnemonic in a browser,
      undefined elsewhere, whatever the storage holds. */
  function ReadMnemonic(isBrowser: bool, items: map<string, string>): (r: Option<string>)
    ensures !isBrowser ==> r.None?
    ensures isBrowser ==> (r.Some? <==> MnemonicKey in items)
    ensures r.Some? ==> isBrowser && MnemonicKey in items && r.value == items[MnemonicKey]
  {
    if isBrowser then Get(items, MnemonicKey) else None
  }

  /** In a browser, storing a wallet and then removing it leaves no mnemonic
      to find; elsewhere there never is one. */
  lemma SetThenUnsetForgetsMnemonic(isBrowser: bool, items: map<string, string>, mnemonic: string)
    ensures ReadMnemonic(isBrowser, items[MnemonicKey := mnemonic]) == if isBrowser then Some(mnemonic) else None
    ensures ReadMnemonic(isBrowser, items[MnemonicKey := mnemonic] - {MnemonicKey}) == None
  {
  }

  class WalletService {
    const storage: Storage
    const isPlatformBrowser: bool
    /** Captured once, when the service is built. */
    const locallySavedMnemonic: Option<string>

    constructor (isBrowser: bool, storage: Storage)
      ensures this.storage == storage && isPlatformBrowser == isBrowser
      ensures locallySavedMnemonic == ReadMnemonic(isBrowser, storage.items)
    {
      this.storage := storage;
      isPlatformBrowser := isBrowser;
      var saved := None;
      if isBrowser {
        saved := storage.GetItem(MnemonicKey);
      }
      locallySavedMnemonic := saved;
    }

    /** Picks the derivation call from the response payload (if any), the
        session token and the mnemonic captured at construction: the
        imperative form of `SetupPath`, proved equal to it. */
    method SetupWallet(payload: Option<AuthPayload>, token: Option<string>) returns (r: Option<Derivation>)
      ensures r == SetupPath(payload, token, locallySavedMnemonic)
    {
      if payload.Some? {
        if payload.value.wallet.Some? {
          r := Some(FromEncryptedPhrase(payload.value.wallet.value.mnemonicEncrypted, payload.value.password));
        } else {
          r := Some(NewWallet(payload.value.password));
        }
      } else {
        r := None;
        if Truthy(token) && Truthy(locallySavedMnemonic) {
          r := Some(FromDecryptedPhrase(locallySavedMnemonic.value));
        }
      }
    }

    /** The guarded storage read: the imperative form of `ReadMnemonic`,
        proved equal to it on the current storage. */
    method GetWalletMnemonic() returns (m: Option<string>)
      ensures m == ReadMnemonic(isPlatformBrowser, storage.items)
    {
      m := None;
      if isPlatformBrowser {
        m := storage.GetItem(MnemonicKey);
      }
    }

    /** Keeps the plaintext mnemonic in storage (in a browser only) and
        returns the request that sends the encrypted one to the server. */
    method SetWallet(wallet: SimpleWallet) returns (req: Request<string>)
      modifies storage
      ensures storage.items == if isPlatformBrowser then old(storage.items)[MnemonicKey := wallet.mnemonic]
                               else old(storage.items)
      ensures req == Post(SetWalletUrl, wallet.mnemonicEncrypted)
    {
      if isPlatformBrowser {
        storage.SetItem(MnemonicKey, wallet.mnemonic);
      }
      req := Post(SetWalletUrl, wallet.mnemonicEncrypted);
    }

    /** Removes the stored mnemonic (in a browser only); no other key changes. */
    method UnsetWallet()
      modifies storage
      ensures storage.items == if isPlatformBrowser then old(storage.items) - {MnemonicKey}
                               else old(storage.items)
    {
      if isPlatformBrowser {
        storage.RemoveItem(MnemonicKey);
      }
    }
  }

  /** Storing and removing a wallet on a service leaves no mnemonic to read,
      and does not change the path its setup takes: the setup consults the
      mnemonic captured at construction, not the storage. */
  method StorageChangesDoNotAffectSetup(service: WalletService, wallet: SimpleWallet,
                                        payload: Option<AuthPayload>, token: Option<string>)
      returns (before: Option<Derivation>, after: Option<Derivation>, found: Option<string>)
    modifies service.storage
    ensures before == after
    ensures found.None?
  {
    before := service.SetupWallet(payload, token);
    var _ := service.SetWallet(wallet);
    service.UnsetWallet();
    found := service.GetWalletMnemonic();
    after := service.SetupWallet(payload, token);
  }
}
