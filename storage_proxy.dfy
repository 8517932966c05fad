/** A protection proxy: it wraps a secure storage and hands out the stored
    contents only when it was built with the right access code. */
module StorageProxy {

  /** The one access code the proxy accepts. */
  const AuthCode: int := 1431

  /** SecureStorage: its contents are fixed when it is built. */
  datatype SecureStorage = SecureStorage(contents: string)

  /** SecureStorage::getContents */
  function StoredContents(s: SecureStorage): string
  {
    s.contents
  }

  /** A Storage: the storage itself, or a proxy holding its own code. */
  datatype Storage =
    | Secure(storage: SecureStorage)
    | Proxy(code: int, secureStorage: SecureStorage)

  /** The SecureStorageProxy constructor: builds the wrapped storage from `s`. */
  function MakeProxy(s: string, c: int): (p: Storage)
    ensures p.Proxy? && p.code == c && p.secureStorage == SecureStorage(s)
  {
    Proxy(c, SecureStorage(s))
  }

  /** SecureStorageProxy::auth */
  predicate Auth(code: int)
  {
    code == AuthCode
  }

  /** Storage::getContents, dispatched on the kind of storage. */
  function GetContents(s: Storage): (r: string)
    ensures s.Proxy? ==> r == s.secureStorage.contents || r == ""
    ensures s.Proxy? && r != "" ==> Auth(s.code)
  {
    match s
    case Secure(storage) => StoredContents(storage)
    case Proxy(code, storage) => if Auth(code) then StoredContents(storage) else ""
  }

  /** A secure storage returns exactly the data it was built from. */
  lemma StorageReturnsData(data: string)
    ensures GetContents(Secure(SecureStorage(data))) == data
  {
  }

  /** Built with code 1431, the proxy passes the wrapped contents through. */
  lemma ProxyGrantsWithCode(data: string)
    ensures GetContents(MakeProxy(data, AuthCode)) == data
  {
  }

  /** With any other code the proxy returns the empty string. */
  lemma ProxyDeniesOtherCodes(data: string, c: int)
    requires c != AuthCode
    ensures GetContents(MakeProxy(data, c)) == ""
  {
  }

  /** The proxy behaves like the storage it wraps exactly when the code is
      right or there is nothing to hide. */
  lemma ProxyTransparentIff(data: string, c: int)
    ensures GetContents(MakeProxy(data, c)) == data <==> c == AuthCode || data == ""
  {
  }

  /** The program's main. */
  lemma SecretScenario()
    ensures GetContents(MakeProxy("Top Secret Information", 1431)) == "Top Secret Information"
  {
  }
}
