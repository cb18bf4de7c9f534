/** The strings the popup's host actions produce: the copy text, the web URL,
    the SSH command and the RDP command, each with its chain of defaults.
    Each builder has a reader that recovers what was written into it. */
module Launch {
  import opened Js
  import opened Hosts
  import opened SettingsStore

  // ---------------------------------------------------------------------
  // Builders
  // ---------------------------------------------------------------------

  /** `item.port ? `:${item.port}` : ''`. */
  function PortSuffix(port: Option<int>): string {
    if PortSet(port) then ":" + IntToString(port.value) else ""
  }

  /** The address with its port when the port is set: `ip` or `ip:port`. */
  function Address(h: Host): string {
    h.ip + PortSuffix(h.port)
  }

  /** The record's RDP user when it is set and not empty. */
  predicate RdpUserSet(h: Host) {
    h.rdpUser.Some? && h.rdpUser.value != []
  }

  /** The 'copy' action's text: the address, then ` (RDP: user)` when the
      record has an RDP user. */
  function CopyText(h: Host): (r: string)
    ensures StartsWith(r, Address(h))
  {
    Address(h) + (if RdpUserSet(h) then [' '] + RdpNote(h.rdpUser.value) else "")
  }

  /** The note naming the RDP user in the copy text: `(RDP: user)`. */
  function RdpNote(user: string): string {
    "(RDP: " + user + ")"
  }

  /** `openWeb`: `http://ip` with `:port` when the port is set. */
  function WebUrl(h: Host): (r: string)
    ensures StartsWith(r, "http://") && r[7..] == Address(h)
  {
    "http://" + Address(h)
  }

  /** `settings.defaultSSHUser || 'admin'`. */
  function SshUser(settings: Settings): (r: string)
    ensures r != []
    ensures settings.defaultSSHUser != [] ==> r == settings.defaultSSHUser
    ensures settings.defaultSSHUser == [] ==> r == "admin"
  {
    if settings.defaultSSHUser != [] then settings.defaultSSHUser else "admin"
  }

  /** The first truthy port: the record's, then the configured default, then
      the protocol's own. */
  function PortChain(port: Option<int>, configured: int, builtIn: int): (r: int)
    requires builtIn != 0
    ensures r != 0
    ensures PortSet(port) ==> r == port.value
    ensures !PortSet(port) && configured != 0 ==> r == configured
    ensures !PortSet(port) && configured == 0 ==> r == builtIn
  {
    if PortSet(port) then port.value else if configured != 0 then configured else builtIn
  }

  /** `item.port || settings.defaultSSHPort || 22`. */
  function SshPort(h: Host, settings: Settings): int {
    PortChain(h.port, settings.defaultSSHPort, 22)
  }

  /** `item.port || settings.defaultRDPPort || 3389`. */
  function RdpPort(h: Host, settings: Settings): int {
    PortChain(h.port, settings.defaultRDPPort, 3389)
  }

  /** `openSSH`'s command: `ssh user@ip -p port`. */
  function SshCommand(h: Host, settings: Settings): (r: string)
    ensures StartsWith(r, "ssh " + SshUser(settings) + "@" + h.ip + " -p ")
  {
    "ssh " + SshUser(settings) + "@" + h.ip + " -p " + IntToString(SshPort(h, settings))
  }

  /** `openRDP`'s command: `mstsc /v:ip:port`. */
  function RdpCommand(h: Host, settings: Settings): (r: string)
    ensures StartsWith(r, "mstsc /v:" + h.ip + ":")
  {
    "mstsc /v:" + h.ip + ":" + IntToString(RdpPort(h, settings))
  }

  // ---------------------------------------------------------------------
  // Readers
  // ---------------------------------------------------------------------

  /** The text before and after the first `c` in `s`, if there is one. */
  function SplitAtFirst(s: string, c: char): (r: Option<(string, string)>)
    ensures r.None? <==> c !in s
    ensures r.Some? ==> s == r.value.0 + [c] + r.value.1 && c !in r.value.0
  {
    if s == [] then None
    else if s[0] == c then
      assert s == [] + [c] + s[1..];
      Some(([], s[1..]))
    else match SplitAtFirst(s[1..], c)
      case None => None
      case Some((a, b)) =>
        assert s == [s[0]] + s[1..];
        Some(([s[0]] + a, b))
  }

  /** A text that starts with `a` and a `c` that `a` lacks splits exactly
      there. */
  lemma {:induction false} SplitAtFirstOf(a: string, c: char, b: string)
    requires c !in a
    ensures SplitAtFirst(a + [c] + b, c) == Some((a, b))
  {
    var s := a + [c] + b;
    if a != [] {
      SplitAtFirstOf(a[1..], c, b);
      assert s[0] == a[0] && a[0] != c;
      assert s[1..] == a[1..] + [c] + b;
      assert [a[0]] + a[1..] == a;
    } else {
      assert a + [c] + b == [c] + b;
    }
  }

  /** Only digits and a minus sign are written for a number. */
  lemma IntToStringChars(n: int, c: char)
    requires c != '-' && !('0' <= c <= '9')
    ensures c !in IntToString(n)
  {
    if n < 0 {
      assert IntToString(n) == ['-'] + NatToString(-n);
    }
  }

  /** Reads `ip` or `ip:port`. */
  function ParseAddress(s: string): (string, Option<int>) {
    match SplitAtFirst(s, ':')
    case None => (s, None)
    case Some((ip, port)) => (ip, ParseInt(port))
  }

  /** The address reads back as the record's address and its port when that
      is set, provided the address holds no colon. */
  lemma AddressRoundTrip(h: Host)
    requires ':' !in h.ip
    ensures ParseAddress(Address(h)) == (h.ip, if PortSet(h.port) then h.port else None)
  {
    if PortSet(h.port) {
      SplitAtFirstOf(h.ip, ':', IntToString(h.port.value));
      assert Address(h) == h.ip + [':'] + IntToString(h.port.value);
      ParseIntToString(h.port.value);
    } else {
      assert Address(h) == h.ip;
    }
  }

  /** An address without spaces keeps none when its port is added. */
  lemma AddressNoSpace(h: Host)
    requires ' ' !in h.ip
    ensures ' ' !in Address(h)
  {
    if PortSet(h.port) {
      IntToStringChars(h.port.value, ' ');
      assert Address(h) == h.ip + [':'] + IntToString(h.port.value);
    } else {
      assert Address(h) == h.ip;
    }
  }

  /** Reads a web URL back into its address and port. */
  function ParseWebUrl(url: string): Option<(string, Option<int>)> {
    if StartsWith(url, "http://") then Some(ParseAddress(url[7..])) else None
  }

  /** The web URL is `http://` followed by the address, and reads back as the
      record's address and truthy port. */
  lemma WebUrlRoundTrip(h: Host)
    requires ':' !in h.ip
    ensures ParseWebUrl(WebUrl(h)) == Some((h.ip, if PortSet(h.port) then h.port else None))
  {
    assert WebUrl(h)[7..] == Address(h);
    AddressRoundTrip(h);
  }

  /** Reads the copy text back into address, port and RDP user. */
  function ParseCopyText(s: string): (string, Option<int>, Option<string>) {
    match SplitAtFirst(s, ' ')
    case None => (ParseAddress(s).0, ParseAddress(s).1, None)
    case Some((address, note)) =>
      (ParseAddress(address).0, ParseAddress(address).1, ParseRdpNote(note))
  }

  /** Reads the user back out of an RDP note. */
  function ParseRdpNote(note: string): Option<string> {
    if StartsWith(note, "(RDP: ") && |note| >= 7 && note[|note| - 1] == ')'
    then Some(note[6..|note| - 1]) else None
  }

  /** The RDP note reads back as its user. */
  lemma RdpNoteRoundTrip(user: string)
    ensures ParseRdpNote(RdpNote(user)) == Some(user)
  {
    var note := RdpNote(user);
    assert note[..6] == "(RDP: ";
    assert note[6..|note| - 1] == user;
  }

  /** The copy text reads back as the record's address, its truthy port and
      its non-empty RDP user, provided the address holds no colon or space. */
  lemma CopyTextRoundTrip(h: Host)
    requires ':' !in h.ip && ' ' !in h.ip
    ensures ParseCopyText(CopyText(h)) ==
      (h.ip, if PortSet(h.port) then h.port else None, if RdpUserSet(h) then h.rdpUser else None)
  {
    AddressRoundTrip(h);
    AddressNoSpace(h);
    var address := Address(h);
    if RdpUserSet(h) {
      var note := RdpNote(h.rdpUser.value);
      assert CopyText(h) == address + [' '] + note;
      SplitAtFirstOf(address, ' ', note);
      RdpNoteRoundTrip(h.rdpUser.value);
    } else {
      assert CopyText(h) == address;
    }
  }

  /** Reads an SSH command back into user, address and port. */
  function ParseSshCommand(cmd: string): Option<(string, string, int)> {
    if !StartsWith(cmd, "ssh ") then None
    else match SplitAtFirst(cmd[4..], '@')
      case None => None
      case Some((user, target)) =>
        match SplitAtFirst(target, ' ')
        case None => None
        case Some((ip, option)) =>
          if !StartsWith(option, "-p ") then None
          else match ParseInt(option[3..])
            case None => None
            case Some(port) => Some((user, ip, port))
  }

  /** The SSH command reads back as the default user (or `admin`), the
      record's address and the first truthy port, provided the user holds no
      `@` and the address no space. */
  lemma SshCommandRoundTrip(h: Host, settings: Settings)
    requires '@' !in settings.defaultSSHUser && ' ' !in h.ip
    ensures ParseSshCommand(SshCommand(h, settings)) == Some((SshUser(settings), h.ip, SshPort(h, settings)))
  {
    var user, p := SshUser(settings), SshPort(h, settings);
    var port := IntToString(p);
    var option := "-p " + port;
    var target := h.ip + [' '] + option;
    var cmd := SshCommand(h, settings);
    assert StartsWith(cmd, "ssh ");
    assert cmd[4..] == user + ['@'] + target;
    assert SplitAtFirst(cmd[4..], '@') == Some((user, target)) by {
      SplitAtFirstOf(user, '@', target);
    }
    assert SplitAtFirst(target, ' ') == Some((h.ip, option)) by {
      SplitAtFirstOf(h.ip, ' ', option);
    }
    assert StartsWith(option, "-p ") && option[3..] == port;
    assert ParseInt(port) == Some(p) by {
      ParseIntToString(p);
    }
  }

  /** Reads an RDP command back into address and port. */
  function ParseRdpCommand(cmd: string): Option<(string, int)> {
    if !StartsWith(cmd, "mstsc /v:") then None
    else match SplitAtFirst(cmd[9..], ':')
      case None => None
      case Some((ip, port)) =>
        match ParseInt(port)
        case None => None
        case Some(p) => Some((ip, p))
  }

  /** The RDP command reads back as the record's address and the first truthy
      port, provided the address holds no colon. */
  lemma RdpCommandRoundTrip(h: Host, settings: Settings)
    requires ':' !in h.ip
    ensures ParseRdpCommand(RdpCommand(h, settings)) == Some((h.ip, RdpPort(h, settings)))
  {
    var p := RdpPort(h, settings);
    var port := IntToString(p);
    var cmd := RdpCommand(h, settings);
    assert StartsWith(cmd, "mstsc /v:");
    assert cmd[9..] == h.ip + [':'] + port;
    assert SplitAtFirst(cmd[9..], ':') == Some((h.ip, port)) by {
      SplitAtFirstOf(h.ip, ':', port);
    }
    assert ParseInt(port) == Some(p) by {
      ParseIntToString(p);
    }
  }
}
