/** The older email-settings singleton of `notifications/models.py`: `save`
    always writes the row with primary key 1, `load` gets or creates that
    row, and `get_connection` turns the encryption choice into the TLS and
    SSL flags of the SMTP backend.

    Opening the SMTP connection is not modelled: the model stops at the
    arguments `get_connection` is called with. */
module Notifications {

  /** The three values of `ENCRYPTION_CHOICES`. */
  const EncryptionNone := "None"
  const EncryptionStartTls := "STARTTLS"
  const EncryptionSslTls := "SSL/TLS"

  predicate IsEncryptionChoice(e: string)
  {
    e == EncryptionNone || e == EncryptionStartTls || e == EncryptionSslTls
  }

  /** The transport flags passed to the SMTP backend. */
  datatype Flags = Flags(useTls: bool, useSsl: bool)

  /** The flag selection of `get_connection`. */
  function TransportFlags(encryption: string): (f: Flags)
    ensures f.useTls <==> encryption == EncryptionStartTls
    ensures f.useSsl <==> encryption == EncryptionSslTls
  {
    Flags(encryption == EncryptionStartTls, encryption == EncryptionSslTls)
  }

  /** The two flags are never both set, and "None" (or any other string) sets
      neither. */
  lemma FlagsExclusive(encryption: string)
    ensures !(TransportFlags(encryption).useTls && TransportFlags(encryption).useSsl)
    ensures encryption != EncryptionStartTls && encryption != EncryptionSslTls ==>
              TransportFlags(encryption) == Flags(false, false)
  {
  }

  /** Each choice selects exactly the flags it names. */
  lemma FlagsOfChoices()
    ensures TransportFlags(EncryptionNone) == Flags(false, false)
    ensures TransportFlags(EncryptionStartTls) == Flags(true, false)
    ensures TransportFlags(EncryptionSslTls) == Flags(false, true)
  {
  }

  datatype Settings = Settings(
    pk: nat, host: string, port: nat, username: string, password: string,
    fromName: string, fromAddress: string, encryption: string,
    defaultTo: string, defaultCc: string, defaultBcc: string)

  /** The row `get_or_create(pk=1)` creates: the field defaults, with empty
      text where a field has none. */
  const DefaultSettings := Settings(1, "", 587, "", "", "RFMS Notifications", "no-reply@rfms.com",
                                    EncryptionStartTls, "", "", "")

  lemma DefaultsAreChoices()
    ensures DefaultSettings.port == 587 && DefaultSettings.encryption == EncryptionStartTls
    ensures IsEncryptionChoice(DefaultSettings.encryption)
    ensures TransportFlags(DefaultSettings.encryption) == Flags(true, false)
  {
  }

  /** The arguments of the `get_connection` call: the stored fields as they
      are, and the flags. */
  datatype Connection = Connection(host: string, port: nat, username: string, password: string, flags: Flags)

  function ConnectionOf(s: Settings): (c: Connection)
    ensures c.host == s.host && c.port == s.port
    ensures c.username == s.username && c.password == s.password
    ensures c.flags.useTls <==> s.encryption == EncryptionStartTls
    ensures c.flags.useSsl <==> s.encryption == EncryptionSslTls
  {
    Connection(s.host, s.port, s.username, s.password, TransportFlags(s.encryption))
  }

  /** The settings table, keyed by primary key. */
  class SettingsTable {
    var rows: map<nat, Settings>

    /** At most the one row with primary key 1, stored under its own key. */
    ghost predicate Valid()
      reads this
    {
      && rows.Keys <= {1}
      && forall k :: k in rows ==> rows[k].pk == k
    }

    constructor ()
      ensures rows == map[] && Valid()
    {
      rows := map[];
    }

    /** `save`: the primary key is overwritten with 1 before the write, so the
        row with key 1 is inserted or replaced and no other row appears. */
    method Save(s: Settings) returns (saved: Settings)
      requires Valid()
      modifies this
      ensures saved == s.(pk := 1)
      ensures rows == old(rows)[1 := saved]
      ensures Valid() && rows.Keys == {1}
    {
      saved := s.(pk := 1);
      rows := rows[1 := saved];
    }

    /** `load`: the row with key 1, created with the defaults when absent. */
    method Load() returns (s: Settings)
      requires Valid()
      modifies this
      ensures 1 in old(rows) ==> rows == old(rows) && s == old(rows)[1]
      ensures 1 !in old(rows) ==> rows == map[1 := DefaultSettings] && s == DefaultSettings
      ensures Valid() && rows.Keys == {1} && s == rows[1] && s.pk == 1
    {
      if 1 !in rows {
        rows := rows[1 := DefaultSettings];
      }
      s := rows[1];
    }
  }
}
