/**
 * The `changeappearance` packet handler of package `packethandlers`
 * (pkg/server/packethandlers/appearance.go): a player who is in the middle of
 * changing appearance sends a new look; the request is checked against the
 * whitelists, a female request is corrected, and only an accepted request
 * changes the player. The packet is taken already decoded into its eight
 * fields.
 */
module Appearance {
  import opened World

  /** A byte read from the packet. */
  newtype byte = x: int | 0 <= x < 256

  /** Head sprites. */
  const CrewHead: int := 1
  const MetalHead: int := 4
  const DownsHead: int := 6
  const BeardHead: int := 7
  const BaldHead: int := 8
  const ValidHeads: seq<int> := [CrewHead, MetalHead, DownsHead, BeardHead, BaldHead]
  const ValidFemaleHeads: seq<int> := [CrewHead, MetalHead, DownsHead, BaldHead]

  /** Body sprites. */
  const MaleBody: int := 2
  const FemaleBody: int := 5
  const ValidBodys: seq<int> := [MaleBody, FemaleBody]

  /** The colour palettes; a request names a colour by its position in the palette. */
  const ValidSkinColors: seq<int> := [0xecded0, 0xccb366, 0xb38c40, 0x997326, 0x906020]
  const ValidHeadColors: seq<int> := [0xffc030, 0xffa040, 0x805030, 0x604020, 0x303030, 0xff6020, 0xff4000, 0xffffff, 65280, 65535]
  const ValidBodyLegColors: seq<int> :=
    [0xff0000, 0xff8000, 0xffe000, 0xa0e000, 57344, 32768, 41088, 45311, 33023, 12528, 0xe000e0, 0x303030, 0x604000, 0x805000, 0xffffff]

  /** The packet's fields in the order they are read: a flag, then seven bytes. */
  datatype Request = Request(
    male: bool, head: byte, body: byte, legs: byte,
    hairColor: byte, topColor: byte, legColor: byte, skinColor: byte)

  /** A sprite byte is sent one lower than the sprite; the increment is done in a byte and wraps. */
  function Sprite(b: byte): (s: int)
    ensures 0 <= s < 256
    ensures b < 255 ==> s == b as int + 1
    ensures b == 255 ==> s == 0
  {
    ((b as int) + 1) % 256
  }

  /** `inArray`: whether `i` occurs in `a`, found by a scan from the front. */
  method InArray(a: seq<int>, i: int) returns (found: bool)
    ensures found <==> i in a
  {
    var k := 0;
    while k < |a|
      invariant 0 <= k <= |a|
      invariant i !in a[..k]
    {
      if a[k] == i {
        return true;
      }
      assert a[..k + 1] == a[..k] + [a[k]];
      k := k + 1;
    }
    assert a[..k] == a;
    return false;
  }

  /** The handler's rejection test, as written (the leg colour bound appears twice in the source). */
  predicate Rejected(r: Request) {
    r.hairColor as int >= |ValidHeadColors| || Sprite(r.head) !in ValidHeads || r.topColor as int >= |ValidBodyLegColors|
    || r.legColor as int >= |ValidBodyLegColors| || r.skinColor as int >= |ValidSkinColors| || Sprite(r.body) !in ValidBodys
    || Sprite(r.legs) != 3 || r.legColor as int >= |ValidBodyLegColors|
  }

  /** The head and body a request ends up with: a female request gets the female body and no beard. */
  function Corrected(r: Request): (hb: (int, int))
  {
    var head := Sprite(r.head);
    var body := Sprite(r.body);
    if r.male then (head, body)
    else (if head == BeardHead then MetalHead else head, FemaleBody)
  }

  /**
   * The request is refused exactly when a colour index is past its palette, the
   * head or body is not an offered sprite, or the legs sprite is not 3.
   */
  lemma RejectedMeans(r: Request)
    ensures Rejected(r) <==>
      r.hairColor >= 10 || r.topColor >= 15 || r.legColor >= 15 || r.skinColor >= 5
      || r.head as int + 1 !in {1, 4, 6, 7, 8} || r.body as int + 1 !in {2, 5} || r.legs != 2
  {
    if r.head == 255 {
      assert Sprite(r.head) == 0 && 0 !in ValidHeads;
    }
    if r.body == 255 {
      assert Sprite(r.body) == 0 && 0 !in ValidBodys;
    }
  }

  /** An accepted request yields an offered body; a female one yields the female body and a female head. */
  lemma CorrectedValid(r: Request)
    requires !Rejected(r)
    ensures Corrected(r).0 in ValidHeads && Corrected(r).1 in ValidBodys
    ensures !r.male ==> Corrected(r).0 in ValidFemaleHeads && Corrected(r).1 == FemaleBody
    ensures r.male ==> Corrected(r) == (Sprite(r.head), Sprite(r.body))
  {
  }

  /** The appearance an accepted request installs over `prior`: everything but the legs sprite is replaced. */
  function Installed(prior: AppearanceTable, r: Request): (a: AppearanceTable)
    ensures a.legs == prior.legs && a.male == r.male
    ensures (a.head, a.body) == Corrected(r)
    ensures a.headColor == r.hairColor as int && a.bodyColor == r.topColor as int
    ensures a.legsColor == r.legColor as int && a.skinColor == r.skinColor as int
  {
    var (head, body) := Corrected(r);
    prior.(head := head, body := body, male := r.male, headColor := r.hairColor as int,
         skinColor := r.skinColor as int, bodyColor := r.topColor as int, legsColor := r.legColor as int)
  }

  /**
   * The `changeappearance` handler. Without the changing-appearance state, or
   * when the request is rejected, nothing changes. Otherwise the worn head and
   * body items follow the new sprites only where they showed the old ones, the
   * appearance is replaced and the changing-appearance state is dropped.
   */
  method ChangeAppearance(player: Player, r: Request)
    requires player.equips.Length >= 2
    modifies player, player.equips, player.mob.attrs
    ensures !old(player.mob.HasState(MSChangingAppearance)) || Rejected(r) ==>
      && player.appearance == old(player.appearance)
      && player.equips[..] == old(player.equips[..])
      && player.mob.attrs.vars == old(player.mob.attrs.vars)
      && player.appearanceChanged == old(player.appearanceChanged)
    ensures old(player.mob.HasState(MSChangingAppearance)) && !Rejected(r) ==>
      && player.appearance == Installed(old(player.appearance), r)
      && player.equips[0] == (if old(player.equips[0]) == old(player.appearance.head) then Corrected(r).0 else old(player.equips[0]))
      && player.equips[1] == (if old(player.equips[1]) == old(player.appearance.body) then Corrected(r).1 else old(player.equips[1]))
      && player.equips[2..] == old(player.equips[2..])
      && player.mob.State() == Unmasked(old(player.mob.State()), MSChangingAppearance)
      && !player.mob.HasState(MSChangingAppearance)
      && player.mob.attrs.vars == old(player.mob.attrs.vars)["state" := IntVal(Unmasked(old(player.mob.State()), MSChangingAppearance))]
    ensures player.connected == old(player.connected)
  {
    if !player.mob.HasState(MSChangingAppearance) {
      return;
    }
    var accepted := Validate(r);
    if !accepted {
      return;
    }
    Apply(player, r);
    player.mob.RemoveState(MSChangingAppearance);
  }

  /** The validation step of the handler: the whitelist and palette checks. */
  method Validate(r: Request) returns (accepted: bool)
    ensures accepted <==> !Rejected(r)
  {
    var headOffered := InArray(ValidHeads, Sprite(r.head));
    var bodyOffered := InArray(ValidBodys, Sprite(r.body));
    if r.hairColor as int >= |ValidHeadColors| || !headOffered || r.topColor as int >= |ValidBodyLegColors|
       || r.legColor as int >= |ValidBodyLegColors| || r.skinColor as int >= |ValidSkinColors| || !bodyOffered
       || Sprite(r.legs) != 3 || r.legColor as int >= |ValidBodyLegColors| {
      return false;
    }
    return true;
  }

  /** The update step of the handler: the female corrections, the worn items and the appearance table. */
  method Apply(player: Player, r: Request)
    requires player.equips.Length >= 2
    modifies player, player.equips
    ensures player.appearance == Installed(old(player.appearance), r)
    ensures player.equips[0] == (if old(player.equips[0]) == old(player.appearance.head) then Corrected(r).0 else old(player.equips[0]))
    ensures player.equips[1] == (if old(player.equips[1]) == old(player.appearance.body) then Corrected(r).1 else old(player.equips[1]))
    ensures player.equips[2..] == old(player.equips[2..])
    ensures player.connected == old(player.connected)
  {
    var headType, bodyType := Sprite(r.head), Sprite(r.body);
    if !r.male {
      if bodyType != FemaleBody {
        bodyType := FemaleBody;
      }
      if headType == BeardHead {
        headType := MetalHead;
      }
    }
    if player.equips[0] == player.appearance.head {
      player.equips[0] := headType;
    }
    if player.equips[1] == player.appearance.body {
      player.equips[1] := bodyType;
    }
    player.appearance := player.appearance.(body := bodyType, head := headType, male := r.male, headColor := r.hairColor as int,
                                            skinColor := r.skinColor as int, bodyColor := r.topColor as int,
                                            legsColor := r.legColor as int);
  }
}
