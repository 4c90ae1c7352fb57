/** pycordia/models/embed.py: the embed builder. An `Embed` holds its public
    texts, a list of fields and six private sub-objects that the setters
    replace; `to_dict` renders the current state. */
module EmbedModel {
  import opened Py
  import opened Json

  /** The dict `__make_image` builds for a thumbnail, an image or a video. */
  function ImageDict(url: Json, proxyUrl: Json, height: Json, width: Json): (d: Json)
    ensures d.JObj? && Keys(d.fields) == ["url", "proxy_url", "height", "width"]
    ensures Lookup(d.fields, "url") == Some(url) && Lookup(d.fields, "proxy_url") == Some(proxyUrl)
    ensures Lookup(d.fields, "height") == Some(height) && Lookup(d.fields, "width") == Some(width)
  {
    var fs := [("url", url), ("proxy_url", proxyUrl), ("height", height), ("width", width)];
    KeysDisplay(fs, ["url", "proxy_url", "height", "width"]);
    LookupFirst(fs, 0, "url");
    LookupFirst(fs, 1, "proxy_url");
    LookupFirst(fs, 2, "height");
    LookupFirst(fs, 3, "width");
    JObj(fs)
  }

  /** The footer dict: the proxy URL goes under "proxy_icon_url". */
  function FooterDict(text: Json, iconUrl: Json, proxyUrl: Json): (d: Json)
    ensures d.JObj? && Keys(d.fields) == ["text", "icon_url", "proxy_icon_url"]
    ensures Lookup(d.fields, "proxy_icon_url") == Some(proxyUrl) && !HasKey(d.fields, "proxy_url")
  {
    var fs := [("text", text), ("icon_url", iconUrl), ("proxy_icon_url", proxyUrl)];
    KeysDisplay(fs, ["text", "icon_url", "proxy_icon_url"]);
    HasKeyInKeys(fs, "proxy_url");
    LookupFirst(fs, 2, "proxy_icon_url");
    JObj(fs)
  }

  /** The author dict: the proxy URL goes under "proxy_icon_url". */
  function AuthorDict(name: Json, url: Json, iconUrl: Json, proxyUrl: Json): (d: Json)
    ensures d.JObj? && Keys(d.fields) == ["name", "url", "icon_url", "proxy_icon_url"]
    ensures Lookup(d.fields, "proxy_icon_url") == Some(proxyUrl) && !HasKey(d.fields, "proxy_url")
  {
    var fs := [("name", name), ("url", url), ("icon_url", iconUrl), ("proxy_icon_url", proxyUrl)];
    KeysDisplay(fs, ["name", "url", "icon_url", "proxy_icon_url"]);
    HasKeyInKeys(fs, "proxy_url");
    LookupFirst(fs, 3, "proxy_icon_url");
    JObj(fs)
  }

  function ProviderDict(name: Json, url: Json): (d: Json)
    ensures d.JObj? && Keys(d.fields) == ["name", "url"]
    ensures Lookup(d.fields, "name") == Some(name) && Lookup(d.fields, "url") == Some(url)
  {
    var fs := [("name", name), ("url", url)];
    KeysDisplay(fs, ["name", "url"]);
    LookupFirst(fs, 1, "url");
    JObj(fs)
  }

  /** One entry of `fields`, as `add_field` appends it. */
  function FieldEntry(name: Json, value: Json, inline: Json): (d: Json)
    ensures d.JObj? && Keys(d.fields) == ["name", "value", "inline"]
    ensures Lookup(d.fields, "name") == Some(name) && Lookup(d.fields, "value") == Some(value)
    ensures Lookup(d.fields, "inline") == Some(inline)
  {
    var fs := [("name", name), ("value", value), ("inline", inline)];
    KeysDisplay(fs, ["name", "value", "inline"]);
    LookupFirst(fs, 1, "value");
    LookupFirst(fs, 2, "inline");
    JObj(fs)
  }

  /** The dict `Embed.create` passes to the constructor: all four keys, so an
      omitted argument arrives as None. */
  function CreateArgs(title: Json, description: Json, url: Json, color: Json): Dict<Json> {
    [("title", title), ("description", description), ("url", url), ("color", color)]
  }

  /** `create` never leaves a default in place for its four keys: an omitted
      title is None, not "". Only the type and timestamp keep their defaults. */
  lemma CreateArgsOverrideDefaults(title: Json, description: Json, url: Json, color: Json)
    ensures FieldOr(CreateArgs(title, description, url, color), "title", JStr("")) == title
    ensures FieldOr(CreateArgs(title, description, url, color), "description", JStr("")) == description
    ensures FieldOr(CreateArgs(title, description, url, color), "url", JStr("")) == url
    ensures FieldOr(CreateArgs(title, description, url, color), "color", JStr("")) == color
    ensures FieldOr(CreateArgs(title, description, url, color), "type", JStr("rich")) == JStr("rich")
    ensures FieldOr(CreateArgs(title, description, url, color), "timestamp", JStr("")) == JStr("")
  {
    var fs := CreateArgs(title, description, url, color);
    KeysDisplay(fs, ["title", "description", "url", "color"]);
    HasKeyInKeys(fs, "type");
    HasKeyInKeys(fs, "timestamp");
    LookupFirst(fs, 1, "description");
    LookupFirst(fs, 2, "url");
    LookupFirst(fs, 3, "color");
  }

  const EmbedKeys: seq<string> := ["title", "type", "description", "url", "timestamp",
    "color", "fields", "thumbnail", "image", "video", "footer", "author", "provider"]

  lemma EmbedKeysDistinct()
    ensures DistinctKeys(EmbedKeys)
  {
  }

  class Embed {
    var title: Json
    var embedType: Json
    var description: Json
    var url: Json
    var timestamp: Json
    var color: Json
    var colour: Json
    var fields: seq<Json>
    var thumbnail: Json
    var image: Json
    var video: Json
    var footer: Json
    var author: Json
    var provider: Json

    /** `Embed(data)`: texts default to "" (the colour too), the type to
        "rich"; no fields and six empty sub-objects. `colour` is a copy of
        `color` taken here. */
    constructor (data: Dict<Json>)
      ensures title == FieldOr(data, "title", JStr("")) && embedType == FieldOr(data, "type", JStr("rich"))
      ensures description == FieldOr(data, "description", JStr("")) && url == FieldOr(data, "url", JStr(""))
      ensures timestamp == FieldOr(data, "timestamp", JStr(""))
      ensures color == FieldOr(data, "color", JStr("")) && colour == color
      ensures fields == []
      ensures !Truthy(thumbnail) && thumbnail.JObj? && !Truthy(image) && image.JObj?
      ensures !Truthy(video) && video.JObj? && !Truthy(footer) && footer.JObj?
      ensures !Truthy(author) && author.JObj? && !Truthy(provider) && provider.JObj?
    {
      title := FieldOr(data, "title", JStr(""));
      embedType := FieldOr(data, "type", JStr("rich"));
      description := FieldOr(data, "description", JStr(""));
      url := FieldOr(data, "url", JStr(""));
      timestamp := FieldOr(data, "timestamp", JStr(""));
      color := FieldOr(data, "color", JStr(""));
      colour := FieldOr(data, "color", JStr(""));
      fields := [];
      thumbnail := JObj([]);
      image := JObj([]);
      video := JObj([]);
      footer := JObj([]);
      author := JObj([]);
      provider := JObj([]);
    }

    /** `Embed.create(...)` */
    static method Create(title: Json, description: Json, url: Json, color: Json) returns (e: Embed)
      ensures fresh(e)
      ensures e.title == title && e.description == description && e.url == url
      ensures e.color == color && e.colour == color
      ensures e.embedType == JStr("rich") && e.timestamp == JStr("") && e.fields == []
    {
      CreateArgsOverrideDefaults(title, description, url, color);
      e := new Embed(CreateArgs(title, description, url, color));
    }

    /** `add_field`: one entry at the end, the earlier ones kept in order. */
    method AddField(name: Json, value: Json, inline: Json := JBool(true))
      modifies this`fields
      ensures fields == old(fields) + [FieldEntry(name, value, inline)]
    {
      fields := fields + [FieldEntry(name, value, inline)];
    }

    method SetThumbnail(url: Json, proxyUrl: Json := JNull, height: Json := JNull, width: Json := JNull)
      modifies this`thumbnail
      ensures thumbnail == ImageDict(url, proxyUrl, height, width)
    {
      thumbnail := ImageDict(url, proxyUrl, height, width);
    }

    method SetImage(url: Json, proxyUrl: Json := JNull, height: Json := JNull, width: Json := JNull)
      modifies this`image
      ensures image == ImageDict(url, proxyUrl, height, width)
    {
      image := ImageDict(url, proxyUrl, height, width);
    }

    method SetVideo(url: Json, proxyUrl: Json := JNull, height: Json := JNull, width: Json := JNull)
      modifies this`video
      ensures video == ImageDict(url, proxyUrl, height, width)
    {
      video := ImageDict(url, proxyUrl, height, width);
    }

    method SetFooter(text: Json, iconUrl: Json, proxyUrl: Json := JNull)
      modifies this`footer
      ensures footer == FooterDict(text, iconUrl, proxyUrl)
    {
      footer := FooterDict(text, iconUrl, proxyUrl);
    }

    method SetAuthor(name: Json, url: Json, iconUrl: Json, proxyUrl: Json := JNull)
      modifies this`author
      ensures author == AuthorDict(name, url, iconUrl, proxyUrl)
    {
      author := AuthorDict(name, url, iconUrl, proxyUrl);
    }

    method SetProvider(name: Json := JNull, url: Json := JNull)
      modifies this`provider
      ensures provider == ProviderDict(name, url)
    {
      provider := ProviderDict(name, url);
    }

    /** `to_dict()`: exactly the thirteen keys, each holding the current value. */
    function ToDict(): (d: Json)
      reads this
      ensures d.JObj? && Keys(d.fields) == EmbedKeys
      ensures Lookup(d.fields, "title") == Some(title) && Lookup(d.fields, "type") == Some(embedType)
      ensures Lookup(d.fields, "color") == Some(color) && Lookup(d.fields, "fields") == Some(JArr(fields))
      ensures Lookup(d.fields, "thumbnail") == Some(thumbnail) && Lookup(d.fields, "footer") == Some(footer)
      ensures Lookup(d.fields, "provider") == Some(provider)
      ensures Lookup(d.fields, "description") == Some(description) && Lookup(d.fields, "url") == Some(url)
      ensures Lookup(d.fields, "timestamp") == Some(timestamp) && Lookup(d.fields, "image") == Some(image)
      ensures Lookup(d.fields, "video") == Some(video) && Lookup(d.fields, "author") == Some(author)
    {
      JObj(EmbedEntries(title, embedType, description, url, timestamp, color, JArr(fields),
                        thumbnail, image, video, footer, author, provider))
    }
  }

  /** The entries of `to_dict()`, in the order the source lists them. */
  function EmbedEntries(title: Json, embedType: Json, description: Json, url: Json, timestamp: Json,
                        color: Json, fields: Json, thumbnail: Json, image: Json, video: Json,
                        footer: Json, author: Json, provider: Json): (fs: Dict<Json>)
    ensures Keys(fs) == EmbedKeys
    ensures Lookup(fs, "title") == Some(title) && Lookup(fs, "type") == Some(embedType)
    ensures Lookup(fs, "color") == Some(color) && Lookup(fs, "fields") == Some(fields)
    ensures Lookup(fs, "thumbnail") == Some(thumbnail) && Lookup(fs, "footer") == Some(footer)
    ensures Lookup(fs, "provider") == Some(provider)
    ensures Lookup(fs, "description") == Some(description) && Lookup(fs, "url") == Some(url)
    ensures Lookup(fs, "timestamp") == Some(timestamp) && Lookup(fs, "image") == Some(image)
    ensures Lookup(fs, "video") == Some(video) && Lookup(fs, "author") == Some(author)
  {
    var fs := [("title", title), ("type", embedType), ("description", description), ("url", url),
      ("timestamp", timestamp), ("color", color), ("fields", fields),
      ("thumbnail", thumbnail), ("image", image), ("video", video), ("footer", footer),
      ("author", author), ("provider", provider)];
    KeysDisplay(fs, EmbedKeys);
    EmbedKeysDistinct();
    LookupDistinct(fs, EmbedKeys, 0);
    LookupDistinct(fs, EmbedKeys, 1);
    LookupDistinct(fs, EmbedKeys, 2);
    LookupDistinct(fs, EmbedKeys, 3);
    LookupDistinct(fs, EmbedKeys, 4);
    LookupDistinct(fs, EmbedKeys, 5);
    LookupDistinct(fs, EmbedKeys, 6);
    LookupDistinct(fs, EmbedKeys, 7);
    LookupDistinct(fs, EmbedKeys, 8);
    LookupDistinct(fs, EmbedKeys, 9);
    LookupDistinct(fs, EmbedKeys, 10);
    LookupDistinct(fs, EmbedKeys, 11);
    LookupDistinct(fs, EmbedKeys, 12);
    fs
  }

  /** Building an embed step by step: after `create`, two `add_field` calls
      and a thumbnail, `to_dict` lists both fields in call order and the thumbnail. */
  method BuildExample(t: Json, n1: Json, v1: Json, n2: Json, v2: Json, u: Json) returns (d: Json)
    ensures d.JObj? && Lookup(d.fields, "title") == Some(t)
    ensures Lookup(d.fields, "fields") == Some(JArr([FieldEntry(n1, v1, JBool(true)), FieldEntry(n2, v2, JBool(false))]))
    ensures Lookup(d.fields, "thumbnail") == Some(ImageDict(u, JNull, JNull, JNull))
    ensures Lookup(d.fields, "type") == Some(JStr("rich"))
  {
    var e := Embed.Create(t, JNull, JNull, JNull);
    e.AddField(n1, v1);
    e.AddField(n2, v2, JBool(false));
    e.SetThumbnail(u);
    d := e.ToDict();
    assert e.fields == [FieldEntry(n1, v1, JBool(true)), FieldEntry(n2, v2, JBool(false))];
  }
}
