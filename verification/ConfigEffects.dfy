/** The program config: its bytes always are those of a simple set, whatever stale bytes a reallocation leaves. */
module ConfigEffects {
  import opened Outcomes
  import opened Octets
  import opened Layouts
  import opened Store
  import opened Handlers
  import opened Invariants

  /** The approved validators of a program; none is not the same as an empty set. */
  function Approved(s: Store, program: Key): Option<set<Key>> {
    if At(s, Config(program)).owner == System then None
    else match DecodeConfig(At(s, Config(program)).data)
         case Err(_) => None
         case Ok(approved) => Some(approved)
  }

  /** What an insertion or a removal makes of the approved validators: the first one creates the set. */
  function Updated(before: Option<set<Key>>, validator: Key, insert: bool): set<Key> {
    var approved := if before.Some? then before.value else {};
    if insert then approved + {validator} else approved - {validator}
  }

  lemma LoadConfigEffect(c: Chain, s: Store, authority: Key, program: Key, s1: Store, approved: set<Key>)
    requires LoadConfig(c, s, authority, program) == Ok((s1, approved))
    requires ConfigOk(c, s, program) && !ProgramAddress(authority)
    ensures Total(s1) == Total(s) && Frame(s, s1, {Config(program)}) && Owned(s1, Config(program))
    ensures approved == if Approved(s, program).Some? then Approved(s, program).value else {}
    ensures Lamports(s1, Config(program))
            == if Approved(s, program).Some? then Lamports(s, Config(program))
               else AtLeast(Lamports(s, Config(program)), c.rent(0))
    ensures Lamports(s, authority) - Lamports(s1, authority)
            == Lamports(s1, Config(program)) - Lamports(s, Config(program))
    ensures forall k {:trigger At(s1, k)} :: k != Config(program) && k != authority ==> At(s1, k) == At(s, k)
  {
    hide Total, Zeroes, Frame, CreatePda, DecodeConfig, EncodeConfig;
    FrameSame(s, {Config(program)});
    assert ProgramAddress(Config(program));
    if At(s, Config(program)).owner == System {
      CreatePdaEffect(c.rent, s, Config(program), Dlp, 0, authority, s1);
      ShortfallFills(Lamports(s, Config(program)), c.rent(0));
    }
  }

  /** Writing a set over an account of exactly its size replaces every byte, stale ones included. */
  lemma ConfigWritten(c: Chain, approved: set<Key>, data: Bytes)
    requires c.Valid() && |approved| < 0x1_0000_0000 && |data| == ConfigSize(approved)
    ensures var bytes := EncodeConfig(c.listing(approved));
            Overwrite(data, bytes) == Ok(bytes) && DecodeConfig(bytes) == Ok(approved)
                && |bytes| == ConfigSize(approved)
  {
    assert Listing(c.listing(approved), approved);
    ConfigRoundTrip(c.listing(approved), approved);
    var bytes := EncodeConfig(c.listing(approved));
    hide EncodeConfig, DecodeConfig, Listing;
    assert bytes + data[|bytes|..] == bytes;
  }

  lemma WhitelistStages(c: Chain, s: Store, signers: set<Key>,
                        authority: Key, validator: Key, program: Key, insert: bool, stale: Bytes, t: Store)
    returns (s1: Store, before: set<Key>, approved: set<Key>, s2: Store, bytes: Bytes)
    requires HandleWhitelist(c, s, signers, authority, validator, program, insert, stale) == Ok(t)
    ensures LoadConfig(c, s, authority, program) == Ok((s1, before))
    ensures approved == (if insert then before + {validator} else before - {validator}) && |approved| < 0x1_0000_0000
    ensures ResizePda(c.rent, s1, authority, Config(program), ConfigSize(approved), stale) == Ok(s2)
    ensures Overwrite(At(s2, Config(program)).data, EncodeConfig(c.listing(approved))) == Ok(bytes)
    ensures t == SetData(s2, Config(program), bytes)
  {
    hide LoadConfig, ResizePda, Overwrite, EncodeConfig, ConfigSize;
    var loaded := LoadConfig(c, s, authority, program).value;
    s1, before := loaded.0, loaded.1;
    approved := if insert then before + {validator} else before - {validator};
    s2 := ResizePda(c.rent, s1, authority, Config(program), ConfigSize(approved), stale).value;
    bytes := Overwrite(At(s2, Config(program)).data, EncodeConfig(c.listing(approved))).value;
  }

  /** A successful change of the config: the bytes are exactly those of the updated set, whatever the reallocation
      left behind, their length is the size formula's, and the balance covers their rent. */
  lemma WhitelistEffect(c: Chain, s: Store, signers: set<Key>,
                        authority: Key, validator: Key, program: Key, insert: bool, stale: Bytes, t: Store)
    requires HandleWhitelist(c, s, signers, authority, validator, program, insert, stale) == Ok(t)
    requires c.Valid() && ConfigOk(c, s, program) && !ProgramAddress(authority)
    ensures Total(t) == Total(s) && Frame(s, t, {Config(program)}) && ConfigOk(c, t, program)
    ensures var approved := Updated(Approved(s, program), validator, insert);
            && Approved(t, program) == Some(approved)
            && At(t, Config(program)).data == EncodeConfig(c.listing(approved))
            && |At(t, Config(program)).data| == ConfigSize(approved)
            && c.rent(ConfigSize(approved)) <= Lamports(t, Config(program))
  {
    hide ProgramAddress, Total, Frame, HandleWhitelist, LoadConfig, ResizePda, Overwrite, DecodeConfig, EncodeConfig,
         Approved, ConfigSize;
    var config := Config(program);
    ConfigAddress(program);
    var s1, before, approved, s2, bytes :=
        WhitelistStages(c, s, signers, authority, validator, program, insert, stale, t);
    LoadConfigEffect(c, s, authority, program, s1, before);
    assert approved == Updated(Approved(s, program), validator, insert);
    ResizePdaEffect(c.rent, s1, authority, config, ConfigSize(approved), stale, s2);
    ConfigWritten(c, approved, At(s2, config).data);
    RewriteEffect(s2, config, At(t, config));
    FrameThen(s, s1, s2, {config});
    FrameThen(s, s2, t, {config});
    ConfigNow(t, program, approved);
  }

  /** What it costs: the authority pays exactly what the config lacks of the rent for its new size. */
  lemma WhitelistCost(c: Chain, s: Store, signers: set<Key>,
                      authority: Key, validator: Key, program: Key, insert: bool, stale: Bytes, t: Store)
    requires HandleWhitelist(c, s, signers, authority, validator, program, insert, stale) == Ok(t)
    requires ConfigOk(c, s, program) && !ProgramAddress(authority)
    ensures var config, before := Config(program), Approved(s, program);
            var created := if before.Some? then Lamports(s, config) else AtLeast(Lamports(s, config), c.rent(0));
            && Lamports(t, config) == AtLeast(created, c.rent(ConfigSize(Updated(before, validator, insert))))
            && Lamports(s, authority) - Lamports(t, authority) == Lamports(t, config) - Lamports(s, config)
  {
    hide ProgramAddress, Total, Frame, HandleWhitelist, LoadConfig, ResizePda, Overwrite, EncodeConfig, Approved,
         ConfigSize, ConfigOk;
    ConfigAddress(program);
    var s1, before, approved, s2, bytes :=
        WhitelistStages(c, s, signers, authority, validator, program, insert, stale, t);
    LoadConfigEffect(c, s, authority, program, s1, before);
    ResizePdaEffect(c.rent, s1, authority, Config(program), ConfigSize(approved), stale, s2);
    assert approved == Updated(Approved(s, program), validator, insert);
  }

  lemma ConfigAddress(program: Key)
    ensures ProgramAddress(Config(program))
  {}

  lemma ConfigNow(t: Store, program: Key, approved: set<Key>)
    requires Owned(t, Config(program)) && DecodeConfig(At(t, Config(program)).data) == Ok(approved)
    ensures Approved(t, program) == Some(approved)
  {}

  lemma ApprovedFramed(s: Store, t: Store, program: Key, except: set<Key>)
    requires Frame(s, t, except) && Config(program) !in except
    ensures Approved(t, program) == Approved(s, program)
  {
    assert Kept(At(s, Config(program)), At(t, Config(program)));
  }

  /** The gate of commit admits everyone while there is no config, and exactly the approved validators once there is. */
  lemma GateAdmits(c: Chain, s: Store, program: Key, validator: Key)
    requires ConfigOk(c, s, program)
    ensures Admitted(s, program, validator).Pass? <==>
              Approved(s, program).None? || validator in Approved(s, program).value
  {
    hide EncodeConfig;
  }
}
