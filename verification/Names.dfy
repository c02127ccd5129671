/** Service names and the composite "service:portName" keys of the proxy's listener table. */
module Names {
  const MAX_NAME_LENGTH := 64

  predicate IsAlphaNum(c: char) {
    'a' <= c <= 'z' || 'A' <= c <= 'Z' || '0' <= c <= '9'
  }

  predicate IsNameChar(c: char) {
    IsAlphaNum(c) || c == '.' || c == '_' || c == '-'
  }

  /** The names `ValidateServiceName` accepts: Deploy, Restart and Reserve refuse all others. */
  predicate ValidServiceName(name: string) {
    && name != ""
    && !("~daemon" <= name)
    && |name| <= MAX_NAME_LENGTH
    && (forall i | 1 <= i < |name| :: !(name[i - 1] == '.' && name[i] == '.'))
    && IsAlphaNum(name[0])
    && (forall i | 1 <= i < |name| :: IsNameChar(name[i]))
  }

  /** The ASCII codes of the letters and the digits. */
  predicate LetterOrDigit(code: int) {
    48 <= code <= 57 || 65 <= code <= 90 || 97 <= code <= 122
  }

  ghost predicate Contains(s: string, part: string) {
    exists before, after :: s == before + part + after
  }

  /** Accepted are exactly: one to 64 characters, the first a letter or a digit, the others these or '.',
      '_' and '-', no two dots in a row. In particular no accepted name starts with the reserved "~daemon". */
  lemma ValidNamesExact(name: string)
    ensures ValidServiceName(name) <==>
              && 1 <= |name| <= 64
              && LetterOrDigit(name[0] as int)
              && (forall i | 1 <= i < |name| :: LetterOrDigit(name[i] as int) || name[i] in {'.', '_', '-'})
              && !Contains(name, "..")
  {
    TwoDots(name);
    if name != "" {
      assert "~daemon" <= name ==> name[0] == "~daemon"[0] == '~';
      assert forall i | 0 <= i < |name| :: IsAlphaNum(name[i]) <==> LetterOrDigit(name[i] as int);
    }
  }

  lemma TwoDots(name: string)
    ensures Contains(name, "..") <==> exists i :: 1 <= i < |name| && name[i - 1] == '.' && name[i] == '.'
  {
    if Contains(name, "..") {
      var before, after :| name == before + ".." + after;
      var i := |before| + 1;
      assert name[i - 1] == '.' && name[i] == '.';
    }
    if exists i :: 1 <= i < |name| && name[i - 1] == '.' && name[i] == '.' {
      var i :| 1 <= i < |name| && name[i - 1] == '.' && name[i] == '.';
      assert name == name[..i - 1] + ".." + name[i + 1..];
    }
  }

  predicate ColonFree(s: string) {
    ':' !in s
  }

  /** The part of a key before its first colon. */
  function Owner(key: string): (service: string)
    ensures ColonFree(service)
  {
    if key == "" || key[0] == ':' then "" else [key[0]] + Owner(key[1..])
  }

  function EntryKey(service: string, portName: string): (key: string)
    ensures ColonFree(service) ==> Owner(key) == service
  {
    OwnerOfJoin(service, portName);
    service + ":" + portName
  }

  function ServicePrefix(service: string): string {
    service + ":"
  }

  /** Go's strings.HasPrefix; on sequences `<=` is the prefix relation. */
  predicate HasPrefix(s: string, prefix: string) {
    prefix <= s
  }

  lemma {:induction false} OwnerOfJoin(service: string, portName: string)
    ensures ColonFree(service) ==> Owner(service + ":" + portName) == service
  {
    if service != "" && ColonFree(service) {
      var key := service + ":" + portName;
      assert key[1..] == service[1..] + ":" + portName;
      OwnerOfJoin(service[1..], portName);
    }
  }

  lemma ValidNamesAreColonFree(name: string)
    requires ValidServiceName(name)
    ensures ColonFree(name)
  {
    forall i | 0 <= i < |name| ensures name[i] != ':' {
      assert i == 0 || IsNameChar(name[i]);
    }
  }

  lemma EntryKeyInjective(s1: string, p1: string, s2: string, p2: string)
    requires ColonFree(s1) && ColonFree(s2)
    requires EntryKey(s1, p1) == EntryKey(s2, p2)
    ensures s1 == s2 && p1 == p2
  {
    var k1, k2 := EntryKey(s1, p1), EntryKey(s2, p2);
    assert s1 == s2;
    assert p1 == k1[|s1| + 1..] == k2[|s2| + 1..] == p2;
  }

  /** The first colon of a key ends its service name, so any matching prefix starts with that name. */
  lemma FirstColonOwns(service: string, portName: string, name: string)
    requires ColonFree(service)
    ensures HasPrefix(EntryKey(service, portName), ServicePrefix(name))
        ==> name == service || HasPrefix(name, ServicePrefix(service))
  {
    var key := EntryKey(service, portName);
    if HasPrefix(key, ServicePrefix(name)) {
      assert forall i | 0 <= i < |service| :: key[i] == service[i] && service[i] != ':';
      assert key[|name|] == ServicePrefix(name)[|name|] == ':';
      assert name == key[..|name|];
      if |name| > |service| {
        assert name[..|service| + 1] == ServicePrefix(service);
      }
    }
  }

  lemma PrefixHoldsColon(service: string, name: string)
    ensures HasPrefix(name, ServicePrefix(service)) ==> ':' in name
  {
    if HasPrefix(name, ServicePrefix(service)) {
      assert name[|service|] == ServicePrefix(service)[|service|];
    }
  }

  /** Exactly which of a registered service's keys the prefix scan for `name` picks up:
      its own, or - when `name` itself holds a colon - those whose port name starts with the rest. */
  lemma PrefixMatchExact(service: string, portName: string, name: string)
    requires ColonFree(service)
    ensures HasPrefix(EntryKey(service, portName), ServicePrefix(name))
       <==> || name == service
            || (&& HasPrefix(name, ServicePrefix(service))
                && HasPrefix(portName, ServicePrefix(name[|service| + 1..])))
  {
    var key, prefix := EntryKey(service, portName), ServicePrefix(name);
    if name == service {
      assert key[..|prefix|] == prefix;
    } else if HasPrefix(name, ServicePrefix(service)) {
      var rest := name[|service| + 1..];
      assert name == ServicePrefix(service) + rest;
      assert prefix == ServicePrefix(service) + ServicePrefix(rest);
      assert key == ServicePrefix(service) + portName;
      if HasPrefix(key, prefix) {
        assert portName[..|rest| + 1] == key[|service| + 1..][..|rest| + 1] == prefix[|service| + 1..];
      }
      if HasPrefix(portName, ServicePrefix(rest)) {
        assert portName == ServicePrefix(rest) + portName[|rest| + 1..];
        assert key == prefix + portName[|rest| + 1..];
      }
    } else {
      FirstColonOwns(service, portName, name);
    }
  }

  /** Between colon-free names the scan never reaches another service's listeners. */
  lemma PrefixMatchIsolated(service: string, portName: string, name: string)
    requires ColonFree(service) && ColonFree(name)
    ensures HasPrefix(EntryKey(service, portName), ServicePrefix(name)) <==> name == service
  {
    PrefixMatchExact(service, portName, name);
    PrefixHoldsColon(service, name);
  }

  /** Remove does not validate its argument: a name with a colon can reach another service. */
  lemma PrefixMatchCanCollide()
    ensures ValidServiceName("web") && "web:a" != "web"
    ensures HasPrefix(EntryKey("web", "a:b"), ServicePrefix("web:a"))
  {
    PrefixMatchExact("web", "a:b", "web:a");
    assert "web:a"[|"web"| + 1..] == "a";
    assert "a:b"[..2] == ServicePrefix("a");
    assert "web:a"[..4] == ServicePrefix("web");
  }
}
