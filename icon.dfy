/**
 * The icon component: a set (folder) and a name select a static SVG under
 * `/icons/`, with a generated alternative text when none is given.
 */
module Icon {
  import opened Wrappers

  /** The icon folders. */
  datatype IconSet =
    | Arrows | Base | Build | Charts | Components | Connect | Constellation
    | Edit | Emoji | Graphics | Makeups | Office | Peoples

  /** The folder name of a set, as written in the path. */
  function SetName(s: IconSet): (n: string)
    ensures |n| > 0 && '/' !in n
  {
    match s
    case Arrows => "Arrows"
    case Base => "Base"
    case Build => "Build"
    case Charts => "Charts"
    case Components => "Components"
    case Connect => "Connect"
    case Constellation => "Constellation"
    case Edit => "Edit"
    case Emoji => "Emoji"
    case Graphics => "Graphics"
    case Makeups => "Makeups"
    case Office => "Office"
    case Peoples => "Peoples"
  }

  lemma SetNameInjective(s: IconSet, t: IconSet)
    requires SetName(s) == SetName(t)
    ensures s == t
  {
  }

  /** The image attributes left over once `set`, `name` and `alt` are taken out of the props. */
  type ImgAttrs = m: map<string, string> | "set" !in m && "name" !in m && "alt" !in m witness map[]

  datatype IconProps = IconProps(iconSet: Option<IconSet>, name: string, alt: Option<string>, imgProps: ImgAttrs)

  /** The rendered `<img>`: its attributes by name. */
  datatype Img = Img(attrs: map<string, string>)

  const Prefix: string := "/icons/"
  const Suffix: string := ".svg"

  /** `set = "Base"`. */
  function ResolveSet(iconSet: Option<IconSet>): (s: IconSet)
    ensures iconSet.None? ==> s == Base
    ensures iconSet.Some? ==> s == iconSet.value
  {
    iconSet.GetOr(Base)
  }

  /** `src`: the SVG path of `name` in folder `set`. */
  function IconSrc(s: IconSet, name: string): (src: string)
    ensures |Prefix| + |Suffix| < |src|
    ensures src[..|Prefix|] == Prefix && src[|src| - |Suffix|..] == Suffix
  {
    Prefix + SetName(s) + "/" + name + Suffix
  }

  /** `computedAlt`: the given text, or "<set> <name> icon". */
  function ComputedAlt(s: IconSet, name: string, alt: Option<string>): (a: string)
    ensures alt.Some? ==> a == alt.value
    ensures alt.None? ==> a == SetName(s) + " " + name + " icon"
  {
    alt.GetOr(SetName(s) + " " + name + " icon")
  }

  /** `Icon`: `src` and `alt` first, then the remaining props, which win on a clash. */
  function Icon(p: IconProps): (img: Img)
    ensures "src" in img.attrs && "alt" in img.attrs
    ensures img.attrs["alt"] == ComputedAlt(ResolveSet(p.iconSet), p.name, p.alt)
    ensures "src" !in p.imgProps ==> img.attrs["src"] == IconSrc(ResolveSet(p.iconSet), p.name)
    ensures "src" in p.imgProps ==> img.attrs["src"] == p.imgProps["src"]
    ensures forall k :: k in p.imgProps ==> k in img.attrs && img.attrs[k] == p.imgProps[k]
    ensures img.attrs.Keys == p.imgProps.Keys + {"src", "alt"}
  {
    var s := ResolveSet(p.iconSet);
    var src := IconSrc(s, p.name);
    var computedAlt := ComputedAlt(s, p.name, p.alt);
    Img(map["src" := src, "alt" := computedAlt] + p.imgProps)
  }

  /** The name inside a path of folder `set`, if the path has that folder's prefix and the `.svg` suffix. */
  function NameFromSrc(s: IconSet, src: string): Option<string>
  {
    var head := Prefix + SetName(s) + "/";
    if |head| + |Suffix| <= |src| && src[..|head|] == head && src[|src| - |Suffix|..] == Suffix
    then Some(src[|head|..|src| - |Suffix|])
    else None
  }

  /** Stripping the folder prefix and the suffix from a path gives back the name. */
  lemma NameFromSrcRoundTrip(s: IconSet, name: string)
    ensures NameFromSrc(s, IconSrc(s, name)) == Some(name)
  {
    var head := Prefix + SetName(s) + "/";
    var src := IconSrc(s, name);
    assert src == head + name + Suffix;
    assert src[..|head|] == head;
    assert src[|src| - |Suffix|..] == Suffix;
    assert src[|head|..|src| - |Suffix|] == name;
  }

  /** Conversely, whatever name a path yields rebuilds exactly that path. */
  lemma NameFromSrcSound(s: IconSet, src: string, name: string)
    requires NameFromSrc(s, src) == Some(name)
    ensures IconSrc(s, name) == src
  {
    var head := Prefix + SetName(s) + "/";
    assert src == src[..|head|] + src[|head|..|src| - |Suffix|] + src[|src| - |Suffix|..];
  }

  /** In a path, the folder name runs from the prefix up to the first '/' after it. */
  lemma FolderEndsAtSlash(s: IconSet, name: string)
    ensures var src := IconSrc(s, name);
      && |Prefix| + |SetName(s)| < |src|
      && src[|Prefix| + |SetName(s)|] == '/'
      && forall k :: |Prefix| <= k < |Prefix| + |SetName(s)| ==> src[k] != '/'
  {
    var src := IconSrc(s, name);
    assert src == Prefix + SetName(s) + "/" + name + Suffix;
    forall k | |Prefix| <= k < |Prefix| + |SetName(s)| ensures src[k] != '/' {
      assert src[k] == SetName(s)[k - |Prefix|];
    }
  }

  /** Different (set, name) pairs never share a path. */
  lemma {:induction false} IconSrcInjective(s1: IconSet, n1: string, s2: IconSet, n2: string)
    requires IconSrc(s1, n1) == IconSrc(s2, n2)
    ensures s1 == s2 && n1 == n2
  {
    var a, b := SetName(s1), SetName(s2);
    var src := IconSrc(s1, n1);
    assert src == Prefix + a + "/" + n1 + Suffix;
    assert src == Prefix + b + "/" + n2 + Suffix;
    // the first '/' after the prefix ends the folder name, so both folder names have the same length
    FolderEndsAtSlash(s1, n1);
    FolderEndsAtSlash(s2, n2);
    assert a == src[|Prefix|..|Prefix| + |a|] == b;
    SetNameInjective(s1, s2);
    NameFromSrcRoundTrip(s1, n1);
    NameFromSrcRoundTrip(s1, n2);
  }

  /** The first usage in the component's documentation: `<Icon name="home" />`. */
  lemma DocumentedHomeIcon()
    ensures Icon(IconProps(None, "home", None, map[])).attrs["src"] == "/icons/Base/home.svg"
    ensures Icon(IconProps(None, "home", None, map[])).attrs["alt"] == "Base home icon"
  {
    assert IconSrc(Base, "home") == "/icons/Base/home.svg";
    assert ComputedAlt(Base, "home", None) == "Base home icon";
  }

  /** The second usage: `<Icon set="Arrows" name="up" />`. */
  lemma DocumentedArrowIcon()
    ensures Icon(IconProps(Some(Arrows), "up", None, map[])).attrs["src"] == "/icons/Arrows/up.svg"
  {
    assert IconSrc(Arrows, "up") == "/icons/Arrows/up.svg";
  }

  /** The computed path depends on the set and the name only, never on `alt` or other props. */
  lemma SrcIgnoresOtherProps(p: IconProps, q: IconProps)
    requires p.iconSet == q.iconSet && p.name == q.name
    requires "src" !in p.imgProps && "src" !in q.imgProps
    ensures Icon(p).attrs["src"] == Icon(q).attrs["src"]
  {
  }
}
