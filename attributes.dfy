/**
 * The per-tag configuration table and attribute resolution
 * (`TAG_CONFIG` and `get_attribute` in arm2d_xml2c.py), together with
 * how Python renders and tests a possibly absent attribute value.
 */
module Attributes {
  import opened Wrappers

  /** One entry of the tag table: the attributes a tag recognises and the
      fallback values of some of them. */
  datatype TagSpec = TagSpec(attributes: seq<string>, defaults: map<string, string>)

  /** The fallback values of the tags that have any. */
  const AlignDefaults: map<string, string> := map["type" := "centre"]
  const LayoutDefaults: map<string, string> :=
    map["region" := "__centre_region", "alignment" := "DEFAULT", "debug" := "false"]
  const LayoutItemDefaults: map<string, string> := map["dock" := "false"]
  const DockDefaults: map<string, string> := map["margin" := "0"]

  /** The five configured tags. */
  const TagConfig: map<string, TagSpec> := map[
    "Canvas" := TagSpec(["name", "target"], map[]),
    "Align" := TagSpec(["type", "width", "height"], AlignDefaults),
    "Layout" := TagSpec(["region", "alignment", "debug"], LayoutDefaults),
    "LayoutItem" := TagSpec(["style", "height", "width", "dock"], LayoutItemDefaults),
    "Dock" := TagSpec(["side", "width", "height", "margin"], DockDefaults)
  ]

  /** `tag in TAG_CONFIG`: one of the five container tags. */
  predicate Configured(tag: string)
  {
    tag == "Canvas" || tag == "Align" || tag == "Layout" || tag == "LayoutItem" || tag == "Dock"
  }

  /** The default table of a tag (`TAG_CONFIG.get(tag, {}).get("defaults", {})`);
      empty for a tag outside the table. */
  function Defaults(tag: string): map<string, string>
  {
    if tag == "Align" then AlignDefaults
    else if tag == "Layout" then LayoutDefaults
    else if tag == "LayoutItem" then LayoutItemDefaults
    else if tag == "Dock" then DockDefaults
    else map[]
  }

  /** `Configured` and `Defaults` read the tag table: its keys are exactly
      the five container tags, and each tag's defaults are the table's. */
  lemma TagTable(tag: string)
    ensures Configured(tag) <==> tag in TagConfig
    ensures Defaults(tag) == if tag in TagConfig then TagConfig[tag].defaults else map[]
  {
  }

  /** Every default belongs to an attribute its tag recognises. */
  lemma DefaultsWithinAttributes(tag: string, name: string)
    requires tag in TagConfig && name in TagConfig[tag].defaults
    ensures name in TagConfig[tag].attributes
  {
  }

  /** The value of a key in a map, if the key is there. */
  function Lookup(m: map<string, string>, key: string): Option<string>
  {
    if key in m then Some(m[key]) else None
  }

  /** An attribute's value: the node's own value first, then the tag's
      default, otherwise absent. */
  function GetAttribute(tag: string, name: string, attrib: map<string, string>): Option<string>
  {
    if name in attrib then Some(attrib[name])
    else if name in Defaults(tag) then Some(Defaults(tag)[name])
    else None
  }

  /** `get_attribute` is a lookup in the tag's defaults overlaid by the
      node's attributes, and it finds a value exactly when one of the two
      has the key. */
  lemma GetAttributeIsOverlay(tag: string, name: string, attrib: map<string, string>)
    ensures GetAttribute(tag, name, attrib) == Lookup(Defaults(tag) + attrib, name)
    ensures GetAttribute(tag, name, attrib).Some? <==> name in attrib || name in Defaults(tag)
  {
  }

  /** A value on the node always wins over the tag's default. */
  lemma NodeValueOverridesDefault(tag: string, name: string, attrib: map<string, string>)
    requires name in attrib
    ensures GetAttribute(tag, name, attrib) == Some(attrib[name])
  {
  }

  /** The defaults a node without attributes falls back to. */
  lemma DefaultValues()
    ensures GetAttribute("Align", "type", map[]) == Some("centre")
    ensures GetAttribute("Layout", "region", map[]) == Some("__centre_region")
    ensures GetAttribute("Layout", "alignment", map[]) == Some("DEFAULT")
    ensures GetAttribute("Layout", "debug", map[]) == Some("false")
    ensures GetAttribute("LayoutItem", "dock", map[]) == Some("false")
    ensures GetAttribute("Dock", "margin", map[]) == Some("0")
    ensures GetAttribute("Canvas", "name", map[]) == None
    ensures GetAttribute("Dock", "side", map[]) == None
  {
  }

  /** A tag outside the table (a DockItem, for one) has no defaults: only
      the node's own attributes are seen. */
  lemma UnconfiguredTagHasNoDefaults(tag: string, name: string, attrib: map<string, string>)
    requires !Configured(tag)
    ensures GetAttribute(tag, name, attrib) == if name in attrib then Some(attrib[name]) else None
  {
  }

  /** An attribute that always has a value because its tag gives it a default. */
  function Resolve(tag: string, name: string, attrib: map<string, string>): (r: string)
    requires name in Defaults(tag)
    ensures GetAttribute(tag, name, attrib) == Some(r)
  {
    GetAttribute(tag, name, attrib).value
  }

  /** How an f-string renders an attribute value: an absent one prints as `None`. */
  function Render(v: Option<string>): string
  {
    match v
    case Some(s) => s
    case None => "None"
  }

  /** Python truthiness of an attribute value: present and non-empty. */
  predicate Truthy(v: Option<string>)
  {
    v.Some? && v.value != ""
  }
}
