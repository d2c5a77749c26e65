/** The canvas-drawn wallet tooltip (`WalletTooltip`): what it shows, the
    Solscan link it keeps for the drawn address, and its visibility.

    Drawing on the canvas is foreign code: the model keeps what is drawn
    (`content`) and takes the measured width of the address text as a
    parameter. Camera projection is foreign code too: the screen position of
    the tooltip and the world position `update` computes are parameters. */
module Tooltip {
  import opened JsNumber
  import opened Geometry

  /** The `walletData` a tooltip is shown for */
  datatype WalletInfo = WalletInfo(address: string, fartAmount: Num, goatAmount: Num)

  /** The clickable rectangle over the drawn address, in tooltip coordinates */
  datatype LinkArea = LinkArea(x: real, y: real, width: real, height: real, url: string)

  /** The text drawn on the tooltip canvas */
  datatype Content = Content(shortAddress: string, fartAmount: Num, goatAmount: Num, total: Num)

  const SolscanAccountPrefix: string := "https://solscan.io/account/"

  /** Position and size of the link rectangle on the 512 x 256 canvas */
  const LinkX: real := 30.0
  const LinkY: real := 65.0
  const LinkHeight: real := 20.0

  /** The tooltip sprite is 400 x 200 units; clicks are taken relative to its top-left corner */
  const SpriteWidth: real := 400.0
  const SpriteHeight: real := 200.0

  /** The address as drawn: addresses longer than 12 characters become their
      first 8 characters, an ellipsis and their last 4 */
  function ShortAddress(address: string): (short: string)
    ensures |address| <= 12 ==> short == address
    ensures |address| > 12 ==>
      |short| == 15 && short[..8] == address[..8] && short[8..11] == "..." && short[11..] == address[|address| - 4..]
  {
    if |address| > 12 then address[..8] + "..." + address[|address| - 4..] else address
  }

  /** The Solscan account page of an address */
  function SolscanUrl(address: string): (url: string)
    ensures |url| == |SolscanAccountPrefix| + |address|
  {
    SolscanAccountPrefix + address
  }

  /** The account a Solscan account URL points at */
  function AccountOf(url: string): Option<string>
  {
    if |url| >= |SolscanAccountPrefix| && url[..|SolscanAccountPrefix|] == SolscanAccountPrefix
    then Some(url[|SolscanAccountPrefix|..])
    else None
  }

  /** The link leads to the full address, never to the shortened one. */
  lemma UrlCarriesFullAddress(address: string)
    ensures AccountOf(SolscanUrl(address)) == Some(address)
  {
    var url := SolscanUrl(address);
    assert url[..|SolscanAccountPrefix|] == SolscanAccountPrefix;
    assert url[|SolscanAccountPrefix|..] == address;
  }

  /** The inclusive hit test of the click handler */
  predicate InLinkArea(area: LinkArea, relativeX: real, relativeY: real)
  {
    area.x <= relativeX <= area.x + area.width && area.y <= relativeY <= area.y + area.height
  }

  class WalletTooltip {
    var visible: bool
    var walletData: Option<WalletInfo>
    var position: Vec3
    var linkArea: Option<LinkArea>
    /** What the canvas shows; None while it shows the placeholder text */
    var content: Option<Content>
    var spriteVisible: bool
    var spritePosition: Vec3

    /** Whenever there is wallet data, the canvas and the link describe it. */
    predicate Valid()
      reads this
    {
      spriteVisible == visible &&
      (walletData.Some? ==>
        var w := walletData.value;
        linkArea.Some? && linkArea.value.url == SolscanUrl(w.address) &&
        content == Some(Content(ShortAddress(w.address), w.fartAmount, w.goatAmount, Add(w.fartAmount, w.goatAmount))))
    }

    constructor ()
      ensures Valid()
      ensures !visible && walletData.None? && linkArea.None? && content.None?
    {
      visible := false;
      walletData := None;
      position := Vec3(0.0, 0.0, 0.0);
      linkArea := None;
      content := None;
      spriteVisible := false;
      spritePosition := Vec3(0.0, 0.0, 0.0);
    }

    /** `updateTooltipContent`: redraws the canvas for `data` and records the
        link rectangle, `addressTextWidth` wide; does nothing for null data. */
    method UpdateTooltipContent(data: Option<WalletInfo>, addressTextWidth: real)
      modifies this
      ensures data.None? ==>
        linkArea == old(linkArea) && content == old(content)
      ensures data.Some? ==>
        var w := data.value;
        linkArea == Some(LinkArea(LinkX, LinkY, addressTextWidth, LinkHeight, SolscanUrl(w.address))) &&
        content == Some(Content(ShortAddress(w.address), w.fartAmount, w.goatAmount, Add(w.fartAmount, w.goatAmount)))
      ensures visible == old(visible) && walletData == old(walletData) && position == old(position)
      ensures spriteVisible == old(spriteVisible) && spritePosition == old(spritePosition)
    {
      if data.None? {
        return;
      }
      var address := data.value.address;
      var shortAddress := if |address| > 12 then address[..8] + "..." + address[|address| - 4..] else address;
      var total := Add(data.value.fartAmount, data.value.goatAmount);
      linkArea := Some(LinkArea(LinkX, LinkY, addressTextWidth, LinkHeight, SolscanAccountPrefix + address));
      content := Some(Content(shortAddress, data.value.fartAmount, data.value.goatAmount, total));
    }

    /** `show`: remembers the data and position, redraws, becomes visible. */
    method Show(data: Option<WalletInfo>, worldPosition: Vec3, addressTextWidth: real)
      requires Valid()
      modifies this
      ensures Valid()
      ensures visible && walletData == data && position == worldPosition
      ensures data.None? ==> linkArea == old(linkArea) && content == old(content)
      ensures data.Some? ==>
        linkArea == Some(LinkArea(LinkX, LinkY, addressTextWidth, LinkHeight, SolscanUrl(data.value.address)))
      ensures spritePosition == old(spritePosition)
    {
      walletData := data;
      position := worldPosition;
      UpdateTooltipContent(data, addressTextWidth);
      spriteVisible := true;
      visible := true;
    }

    /** `hide`: becomes invisible and keeps everything else. */
    method Hide()
      requires Valid()
      modifies this
      ensures Valid()
      ensures !visible
      ensures walletData == old(walletData) && linkArea == old(linkArea) && content == old(content)
      ensures position == old(position) && spritePosition == old(spritePosition)
    {
      spriteVisible := false;
      visible := false;
    }

    /** `update`: while visible, moves the sprite to `placed`, the point the
        camera projection computes; otherwise does nothing. */
    method Update(placed: Vec3)
      requires Valid()
      modifies this
      ensures Valid()
      ensures spritePosition == (if old(visible) then placed else old(spritePosition))
      ensures visible == old(visible) && walletData == old(walletData) && position == old(position)
      ensures linkArea == old(linkArea) && content == old(content)
    {
      if !visible {
        return;
      }
      spritePosition := placed;
    }

    /** The click handler: `mouseX`/`mouseY` are canvas coordinates and
        `tooltipX`/`tooltipY` the projected screen position of the tooltip.
        Returns the URL opened in a new tab, if any. */
    method Click(mouseX: real, mouseY: real, tooltipX: real, tooltipY: real) returns (link: Option<string>)
      requires Valid()
      ensures var relativeX := mouseX - (tooltipX - SpriteWidth / 2.0);
        var relativeY := mouseY - (tooltipY - SpriteHeight / 2.0);
        link.Some? <==>
          visible && linkArea.Some? && walletData.Some? && InLinkArea(linkArea.value, relativeX, relativeY)
      ensures link.Some? ==> AccountOf(link.value) == Some(walletData.value.address)
    {
      if !visible || linkArea.None? || walletData.None? {
        return None;
      }
      var relativeX := mouseX - (tooltipX - SpriteWidth / 2.0);
      var relativeY := mouseY - (tooltipY - SpriteHeight / 2.0);
      if relativeX >= linkArea.value.x && relativeX <= linkArea.value.x + linkArea.value.width
        && relativeY >= linkArea.value.y && relativeY <= linkArea.value.y + linkArea.value.height
      {
        UrlCarriesFullAddress(walletData.value.address);
        link := Some(linkArea.value.url);
      } else {
        link := None;
      }
    }
  }
}
