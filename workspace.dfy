/**
 * The build's filesystem and the project's attached artifacts, as the
 * package goals see them. Paths are sequences of names; a node is a plain
 * file with some content, or a directory. Archives written by TrueZIP are
 * recorded by what was copied into them, not by their bytes.
 */
module Workspace {
  import opened Wrappers
  import opened Paths

  /** One `cp_rp` of a directory into an archive: copied to the archive's root, or under one entry name. */
  datatype ArchiveEntry = ArchiveEntry(source: Path, entryName: Option<string>)

  datatype Blob = Content(id: nat) | Archive(entries: seq<ArchiveEntry>)

  datatype Node = File(content: Blob) | Dir

  /** `projectHelper.attachArtifact(project, type, classifier, file)`. */
  datatype Attachment = Attachment(kind: string, classifier: string, file: Path)

  /** The names of `dir`'s entries, each once, in some order: what `File.listFiles()` gives. */
  ghost predicate IsListing(nodes: map<Path, Node>, dir: Path, names: seq<string>)
  {
    && Distinct(names)
    && (forall n :: n in names <==> dir + [n] in nodes)
  }

  /** A directory exists at `p`. */
  predicate IsDir(nodes: map<Path, Node>, p: Path)
  {
    p in nodes && nodes[p].Dir?
  }

  /** `nodes` with `p` created as a directory unless something is there already (`FileUtils.mkdir`). */
  function WithDir(nodes: map<Path, Node>, p: Path): (r: map<Path, Node>)
    ensures p in r
    ensures forall q :: q != p ==> (q in r <==> q in nodes) && (q in nodes ==> r[q] == nodes[q])
  {
    if p in nodes then nodes else nodes[p := Dir]
  }

  /** `src` moved to `dst` (`File.renameTo`). */
  function Move(nodes: map<Path, Node>, src: Path, dst: Path): (r: map<Path, Node>)
    requires src in nodes
    ensures dst in r && r[dst] == nodes[src]
    ensures src != dst ==> src !in r
    ensures forall q :: q != src && q != dst ==> (q in r <==> q in nodes) && (q in nodes ==> r[q] == nodes[q])
  {
    (nodes - {src})[dst := nodes[src]]
  }

  /** `p` is `root` or lies somewhere under it. */
  predicate Under(p: Path, root: Path)
  {
    |root| <= |p| && p[..|root|] == root
  }

  /** `nodes` without `p` and everything under it. */
  function Pruned(nodes: map<Path, Node>, p: Path): (r: map<Path, Node>)
    ensures p !in r
    ensures forall q :: q in r <==> q in nodes && !Under(q, p)
    ensures forall q :: q in r ==> r[q] == nodes[q]
  {
    map q | q in nodes && !Under(q, p) :: nodes[q]
  }

  /** The archive at `zip` after one more `cp_rp` into it; TrueZIP adds to an archive that is already there. */
  function ArchiveWith(nodes: map<Path, Node>, zip: Path, entry: ArchiveEntry): Blob
  {
    if zip in nodes && nodes[zip].File? && nodes[zip].content.Archive? then Archive(nodes[zip].content.entries + [entry])
    else Archive([entry])
  }

  /** The build directory and the project's attached artifacts. */
  class Workspace {
    var nodes: map<Path, Node>
    var attached: seq<Attachment>
    var warnings: seq<Path>

    constructor (nodes: map<Path, Node>)
      ensures this.nodes == nodes && attached == [] && warnings == []
    {
      this.nodes, attached, warnings := nodes, [], [];
    }

    /** `FileUtils.mkdir`. */
    method Mkdir(p: Path)
      modifies this
      ensures nodes == WithDir(old(nodes), p)
      ensures attached == old(attached) && warnings == old(warnings)
    {
      nodes := WithDir(nodes, p);
    }

    /** `FileUtils.copyFile`: throws an IOException unless `src` is a file and `dst` is not a directory. */
    method CopyFile(src: Path, dst: Path) returns (ok: bool)
      modifies this
      ensures ok <==> src in old(nodes) && old(nodes)[src].File? && !(dst in old(nodes) && old(nodes)[dst].Dir?)
      ensures nodes == if ok then old(nodes)[dst := old(nodes)[src]] else old(nodes)
      ensures attached == old(attached) && warnings == old(warnings)
    {
      ok := src in nodes && nodes[src].File? && !(dst in nodes && nodes[dst].Dir?);
      if ok {
        nodes := nodes[dst := nodes[src]];
      }
    }

    /** `FileUtils.forceDelete`: throws an IOException when nothing is there, removes a directory with everything under it. */
    method ForceDelete(p: Path) returns (ok: bool)
      modifies this
      ensures ok <==> p in old(nodes)
      ensures ok ==> nodes == Pruned(old(nodes), p)
      ensures !ok ==> nodes == old(nodes)
      ensures attached == old(attached) && warnings == old(warnings)
    {
      ok := p in nodes;
      if ok {
        nodes := Pruned(nodes, p);
      }
    }

    /** `File.renameTo` of a plain file; its result is ignored by the goals, so it is taken to succeed. */
    method Rename(src: Path, dst: Path)
      requires src in nodes
      modifies this
      ensures nodes == Move(old(nodes), src, dst)
      ensures attached == old(attached) && warnings == old(warnings)
    {
      nodes := Move(nodes, src, dst);
    }

    /** `new TFile(src).cp_rp(new TFile(zip[, entryName]))` followed by `TVFS.umount()`. */
    method ArchiveInto(src: Path, zip: Path, entryName: Option<string>)
      modifies this
      ensures nodes == old(nodes)[zip := File(ArchiveWith(old(nodes), zip, ArchiveEntry(src, entryName)))]
      ensures attached == old(attached) && warnings == old(warnings)
    {
      nodes := nodes[zip := File(ArchiveWith(nodes, zip, ArchiveEntry(src, entryName)))];
    }

    /** `projectHelper.attachArtifact`. */
    method Attach(a: Attachment)
      modifies this
      ensures attached == old(attached) + [a]
      ensures nodes == old(nodes) && warnings == old(warnings)
    {
      attached := attached + [a];
    }

    /** `getLog().warn(...)` about an unrecognised bundle. */
    method Warn(p: Path)
      modifies this
      ensures warnings == old(warnings) + [p]
      ensures nodes == old(nodes) && attached == old(attached)
    {
      warnings := warnings + [p];
    }

    /** `File.listFiles()`: null unless `dir` is a directory, else its entries' names in an unspecified order. */
    method ListFiles(dir: Path) returns (listing: Option<seq<string>>)
      ensures listing.None? <==> !(dir in nodes && nodes[dir].Dir?)
      ensures listing.Some? ==> IsListing(nodes, dir, listing.value)
    {
      if !(dir in nodes && nodes[dir].Dir?) {
        return None;
      }
      var children := set p | p in nodes && IsChildOf(p, dir) :: p[|dir|];
      assert forall n :: n in children <==> dir + [n] in nodes by {
        forall n
          ensures n in children <==> dir + [n] in nodes
        {
          if dir + [n] in nodes {
            var p := dir + [n];
            assert IsChildOf(p, dir) && p[|dir|] == n;
          }
          if n in children {
            var p :| p in nodes && IsChildOf(p, dir) && p[|dir|] == n;
            assert p == dir + [n];
          }
        }
      }
      var names := [];
      var rest := children;
      while rest != {}
        invariant rest <= children
        invariant forall n :: n in names <==> n in children && n !in rest
        invariant forall i, j :: 0 <= i < j < |names| ==> names[i] != names[j]
        decreases rest
      {
        var n :| n in rest;
        names := names + [n];
        rest := rest - {n};
      }
      listing := Some(names);
    }
  }
}
