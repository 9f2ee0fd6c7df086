/**
 * DExamineSsl: the dialog that asks for the host and port of a TLS server
 * to examine, and optionally a keystore for client authentication.
 */
module ExamineSsl {
  import opened Wrappers
  import opened JavaText

  /**
   * The state of a keystore the user has opened (KeyStoreHistory's current
   * state): whether it has a password, and whether its type has entry
   * passwords.
   */
  datatype KeyStoreHistory = KeyStoreHistory(password: Option<string>, hasEntryPasswords: bool)

  /** What the user has entered in the dialog's widgets. */
  datatype SslForm = SslForm(
    host: string,
    port: string,
    typeServer: string,
    clientAuth: bool,
    keyStore: Option<KeyStoreHistory>)

  /** The warnings okPressed can show, by their resource names, in the order of its checks. */
  datatype SslRejection =
    | SslHostReq
    | SslPortReq
    | PositiveIntegerSslPortReq
    | NoKeyStoreSelected
    | NoPasswordSetForKeyStore

  datatype SslCheck = Rejected(reason: SslRejection) | Accepted

  /** The port text parses as an int of at least 1. */
  predicate IsPositivePort(portText: string)
  {
    ParseInt(portText).Some? && ParseInt(portText).value >= 1
  }

  /** The host and port checks pass, after which the host and port are stored. */
  predicate ConnectionSettingsValid(hostText: string, portText: string)
  {
    |Trim(hostText)| != 0 && |Trim(portText)| != 0 && IsPositivePort(Trim(portText))
  }

  /** The client-authentication checks pass: off, or a keystore whose password is usable. */
  predicate ClientAuthValid(form: SslForm)
  {
    !form.clientAuth ||
    (form.keyStore.Some? && (form.keyStore.value.password.Some? || !form.keyStore.value.hasEntryPasswords))
  }

  /** The outcome of the host and port checks: a warning, or the values okPressed stores. */
  datatype Connection =
    | ConnectionRejected(reason: SslRejection)
    | Connection(host: string, portText: string, port: int)

  /**
   * The first three checks of okPressed: the trimmed host must be non-empty,
   * then the trimmed port non-empty, then the port an int of at least 1.
   */
  function CheckConnection(hostText: string, portText: string): (c: Connection)
    ensures c == ConnectionRejected(SslHostReq) <==> |Trim(hostText)| == 0
    ensures c == ConnectionRejected(SslPortReq) <==> |Trim(hostText)| != 0 && |Trim(portText)| == 0
    ensures c == ConnectionRejected(PositiveIntegerSslPortReq) <==>
              |Trim(hostText)| != 0 && |Trim(portText)| != 0 && !IsPositivePort(Trim(portText))
    ensures c.Connection? <==> ConnectionSettingsValid(hostText, portText)
    ensures c.Connection? ==>
              c.host == Trim(hostText) && c.portText == Trim(portText) &&
              ParseInt(c.portText) == Some(c.port) && 1 <= c.port <= INT_MAX
  {
    var host := Trim(hostText);
    var port := Trim(portText);
    if |host| == 0 then ConnectionRejected(SslHostReq)
    else if |port| == 0 then ConnectionRejected(SslPortReq)
    else
      match ParseInt(port)
      case None => ConnectionRejected(PositiveIntegerSslPortReq)  // NumberFormatException
      case Some(n) => if n < 1 then ConnectionRejected(PositiveIntegerSslPortReq) else Connection(host, port, n)
  }

  /**
   * The guard chain of okPressed: each check runs only when every earlier
   * one has passed, and the first that fails decides the warning.
   */
  function CheckSslForm(form: SslForm): (r: SslCheck)
    ensures r == Rejected(SslHostReq) <==> |Trim(form.host)| == 0
    ensures r == Rejected(SslPortReq) <==> |Trim(form.host)| != 0 && |Trim(form.port)| == 0
    ensures r == Rejected(PositiveIntegerSslPortReq) <==>
              |Trim(form.host)| != 0 && |Trim(form.port)| != 0 && !IsPositivePort(Trim(form.port))
    ensures r == Rejected(NoKeyStoreSelected) <==>
              ConnectionSettingsValid(form.host, form.port) && form.clientAuth && form.keyStore.None?
    ensures r == Rejected(NoPasswordSetForKeyStore) <==>
              ConnectionSettingsValid(form.host, form.port) && form.clientAuth && form.keyStore.Some? &&
              form.keyStore.value.password.None? && form.keyStore.value.hasEntryPasswords
    ensures r == Accepted <==> ConnectionSettingsValid(form.host, form.port) && ClientAuthValid(form)
  {
    match CheckConnection(form.host, form.port)
    case ConnectionRejected(reason) => Rejected(reason)
    case Connection(_, _, _) =>
      if form.clientAuth && form.keyStore.None? then Rejected(NoKeyStoreSelected)
      else if form.clientAuth && form.keyStore.value.password.None? && form.keyStore.value.hasEntryPasswords
      then Rejected(NoPasswordSetForKeyStore)
      else Accepted
  }

  /**
   * A port written in decimal, with any blanks before and after it, is
   * accepted whenever it is between 1 and 2^31 - 1.
   */
  lemma DecimalPortAccepted(host: string, n: nat, before: string, after: string)
    requires |Trim(host)| != 0
    requires 1 <= n <= INT_MAX
    requires forall k :: 0 <= k < |before| ==> IsTrimmable(before[k])
    requires forall k :: 0 <= k < |after| ==> IsTrimmable(after[k])
    ensures ConnectionSettingsValid(host, before + DecimalString(n) + after)
    ensures CheckSslForm(SslForm(host, before + DecimalString(n) + after, "", false, None)) == Accepted
  {
    var d := DecimalString(n);
    TrimPadded(before, d, after);
    ParseIntRoundTrip(n);
  }

  /** A port typed with a leading blank, " 443", is accepted. */
  lemma LeadingBlankPortAccepted()
    ensures CheckSslForm(SslForm("localhost", " 443", "", false, None)) == Accepted
  {
    assert DecimalString(443) == "443";
    assert " 443" == " " + DecimalString(443) + "";
    DecimalPortAccepted("localhost", 443, " ", "");
  }

  /** The SSL host and port history kept by ApplicationSettings. */
  class ApplicationSettings {
    var sslHosts: seq<string>
    var sslPorts: seq<string>

    constructor (hosts: seq<string>, ports: seq<string>)
      ensures sslHosts == hosts && sslPorts == ports
    {
      sslHosts, sslPorts := hosts, ports;
    }

    method AddSslHost(host: string)
      modifies this
      ensures sslHosts == old(sslHosts) + [host] && sslPorts == old(sslPorts)
    {
      sslHosts := sslHosts + [host];
    }

    method AddSslPort(port: string)
      modifies this
      ensures sslPorts == old(sslPorts) + [port] && sslHosts == old(sslHosts)
    {
      sslPorts := sslPorts + [port];
    }
  }

  class DExamineSsl {
    // the widgets' contents
    var hostText: string
    var portText: string
    var typeServerChoice: string
    var clientAuth: bool
    var keyStoreChoice: Option<KeyStoreHistory>

    // the dialog's results
    var sslHost: Option<string>
    var sslPort: int
    var sslTypeServer: Option<string>
    var cancelled: bool

    const settings: ApplicationSettings

    /** A new dialog: no host, port -1, no server type, cancelled. */
    constructor (settings: ApplicationSettings, form: SslForm)
      ensures this.settings == settings && Form() == form
      ensures sslHost.None? && sslPort == -1 && sslTypeServer.None? && cancelled
    {
      this.settings := settings;
      hostText, portText, typeServerChoice := form.host, form.port, form.typeServer;
      clientAuth, keyStoreChoice := form.clientAuth, form.keyStore;
      sslHost, sslPort, sslTypeServer := None, -1, None;
      cancelled := true;
    }

    function Form(): SslForm
      reads this
    {
      SslForm(hostText, portText, typeServerChoice, clientAuth, keyStoreChoice)
    }

    /**
     * okPressed. A rejected host or port changes nothing. Once they pass,
     * sslHost, sslPort and sslTypeServer are assigned, and they keep those
     * values even if a client-authentication check then rejects. Only full
     * acceptance records the host and port in the settings and clears
     * cancelled.
     */
    method OkPressed() returns (check: SslCheck)
      modifies this, settings
      ensures check == CheckSslForm(old(Form()))
      ensures Form() == old(Form())
      ensures !ConnectionSettingsValid(old(hostText), old(portText)) ==>
                sslHost == old(sslHost) && sslPort == old(sslPort) && sslTypeServer == old(sslTypeServer)
      ensures ConnectionSettingsValid(old(hostText), old(portText)) ==>
                sslHost == Some(Trim(hostText)) && sslPort == ParseInt(Trim(portText)).value &&
                sslTypeServer == Some(typeServerChoice)
      ensures cancelled == (old(cancelled) && check != Accepted)
      ensures check == Accepted ==>
                settings.sslHosts == old(settings.sslHosts) + [Trim(hostText)] &&
                settings.sslPorts == old(settings.sslPorts) + [Trim(portText)]
      ensures check != Accepted ==>
                settings.sslHosts == old(settings.sslHosts) && settings.sslPorts == old(settings.sslPorts)
    {
      var connection := CheckConnection(hostText, portText);
      if connection.ConnectionRejected? {
        return Rejected(connection.reason);
      }

      sslHost := Some(connection.host);
      sslPort := connection.port;
      sslTypeServer := Some(typeServerChoice);

      // check the selected keystore
      if clientAuth {
        if keyStoreChoice.None? {
          return Rejected(NoKeyStoreSelected);
        }
        var ksh := keyStoreChoice.value;
        if ksh.password.None? && ksh.hasEntryPasswords {
          return Rejected(NoPasswordSetForKeyStore);
        }
      }

      // save host and port in the preferences
      settings.AddSslHost(connection.host);
      settings.AddSslPort(connection.portText);

      cancelled := false;
      check := Accepted;
    }

    function GetSslHost(): Option<string>
      reads this
    {
      sslHost
    }

    function GetSslPort(): int
      reads this
    {
      sslPort
    }

    function GetSslTypeServer(): Option<string>
      reads this
    {
      sslTypeServer
    }

    function UseClientAuth(): bool
      reads this
    {
      clientAuth
    }

    function GetKeyStore(): Option<KeyStoreHistory>
      reads this
    {
      keyStoreChoice
    }

    function WasCancelled(): bool
      reads this
    {
      cancelled
    }
  }
}
