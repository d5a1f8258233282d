/** pkg/web/templatemap/template_map.go: the map of values handed to the HTML templates, and
    its Title method, which puts a new title in front of the one already set. The values the
    core stores are all strings, so the map holds strings; an absent key stands for nil. */
module TemplateMaps {
  import opened Base

  /** The title after Title with the text s, given the current title: s in front of a
      current non-empty title, s alone otherwise. */
  function Titled(current: Option<string>, s: string): (t: string)
  {
    if current.Some? && current.value != "" then s + " | " + current.value else s
  }

  /** The new title starts with s and, when a non-empty title was set, ends with it. */
  lemma TitledParts(current: Option<string>, s: string)
    ensures s <= Titled(current, s)
    ensures current.Some? && current.value != "" ==>
      var t := Titled(current, s);
      |t| == |s| + 3 + |current.value| && t[|s|..|s| + 3] == " | " && t[|s| + 3..] == current.value
    ensures !(current.Some? && current.value != "") ==> Titled(current, s) == s
  {
  }

  /** Successive titles stack up, the latest first: Title(a) then Title(b) over t gives
      "b | a | t". */
  lemma TitlesStack(t: string, a: string, b: string)
    requires a != "" && b != ""
    ensures Titled(Some(Titled(Some(t), a)), b) == if t == "" then b + " | " + a else b + " | " + a + " | " + t
  {
  }

  /** templatemap.TemplateMap. */
  class TemplateMap {
    var entries: map<string, string>

    constructor ()
      ensures entries == map[]
    {
      entries := map[];
    }

    /** m[key], None for nil. */
    function Get(key: string): (v: Option<string>)
      reads this
      ensures v.Some? <==> key in entries
      ensures v.Some? ==> v.value == entries[key]
    {
      if key in entries then Some(entries[key]) else None
    }

    /** m[key] = value. */
    method Set(key: string, value: string)
      modifies this
      ensures entries == old(entries)[key := value]
    {
      entries := entries[key := value];
    }

    /** Title(f, args...): nothing for an empty f; otherwise the text (f itself without
        arguments, fmt.Sprintf(f, args...) with them, given as `sprintf`) goes in front of the
        current title. Only "title" is touched. */
    method Title(f: string, args: seq<string>, sprintf: (string, seq<string>) -> string)
      modifies this
      ensures f == "" ==> entries == old(entries)
      ensures f != "" ==>
        entries == old(entries)["title" := Titled(old(Get("title")), if |args| > 0 then sprintf(f, args) else f)]
    {
      if f == "" {
        return;
      }
      var s := f;
      if |args| > 0 {
        s := sprintf(f, args);
      }
      var current := Get("title");
      if current.Some? && current.value != "" {
        entries := entries["title" := s + " | " + current.value];
        return;
      }
      entries := entries["title" := s];
    }
  }
}
