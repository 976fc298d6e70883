/** The image builder: the fixed sequence of external commands that turns a
    source ISO into an iconograph ISO, the ledger of mount points and
    temporary trees it registers as it goes, and the cleanup that tears them
    down afterwards.

    Every external command (a subprocess, a directory creation, a file copy,
    a tree removal) is one entry of the command log, and the command at log
    position k fails exactly when k is in `failing` (see module `Faults`);
    a failing command raises, which aborts the rest of its sequence. */
module BuildImage {
  import opened Wrappers
  import opened Faults
  import opened Paths

  datatype Command =
    | MakeTempDir
    | MakeDir(path: string)
    | Exec(args: seq<string>)
    | CopyFile(src: string, dst: string)
    | RemoveTree(path: string)

  /** The builder's settings; `icoServerPath` is the directory of the
      builder's own script. */
  datatype BuildConfig = BuildConfig(
    sourceIso: string,
    destIso: string,
    archive: string,
    arch: string,
    release: string,
    icoServerPath: string,
    shell: bool)

  const BasePackages: seq<string> := [
    "debconf", "devscripts", "dialog", "git", "gnupg", "isc-dhcp-client", "locales", "nano",
    "net-tools", "iputils-ping", "openssh-server", "python3-openssl", "sudo", "user-setup", "wget"]

  const IconographRepository := "https://github.com/robot-tools/iconograph.git"

  // ---------------------------------------------------------------------
  // The paths of a build

  /** The paths a build works with: the temp root `root` made by `mkdtemp`,
      the directories under it, the files the squash and the grub fix write,
      and the grub template shipped beside the builder. */
  datatype Layout = Layout(
    root: string,
    chroot: string,
    iso: string,
    tmpfs: string,
    upper: string,
    work: string,
    union: string,
    squashfs: string,
    grubTemplate: string,
    loopback: string)

  function BuildLayout(cfg: BuildConfig, root: string): Layout
  {
    var tmpfs, union := Join(root, "tmpfs"), Join(root, "union");
    Layout(root, Join(root, "chroot"), Join(root, "iso"), tmpfs, Join(tmpfs, "upper"), Join(tmpfs, "work"), union,
          Join(Join(union, "casper"), "filesystem.squashfs"),
          Join(Join(cfg.icoServerPath, "iso_files"), "grub.cfg"),
          Join(Join(Join(union, "boot"), "grub"), "loopback.cfg"))
  }

  // ---------------------------------------------------------------------
  // The stages as command sequences

  /** `_Debootstrap`. */
  function DebootstrapCommands(cfg: BuildConfig, chrootPath: string): seq<Command>
  {
    [MakeDir(chrootPath),
     Exec(["debootstrap", "--variant=buildd", "--arch", cfg.arch, cfg.release, chrootPath, cfg.archive])]
  }

  /** Create the directory `dir`, then run `mount` with `dir` as its last
      argument. */
  function MountCommands(dir: string, mount: seq<string>): seq<Command>
  {
    [MakeDir(dir), Exec(mount + [dir])]
  }

  function OverlayOptions(p: Layout): string
  {
    "lowerdir=" + p.iso + ",upperdir=" + p.upper + ",workdir=" + p.work
  }

  /** `_CreateUnion`: the read-only source ISO, a tmpfs and an overlay of the
      two. */
  function UnionCommands(cfg: BuildConfig, p: Layout): seq<Command>
  {
    MountCommands(p.iso, ["mount", "--options", "loop,ro", cfg.sourceIso]) +
    MountCommands(p.tmpfs, ["mount", "--types", "tmpfs", "none"]) +
    [MakeDir(p.upper)] +
    [MakeDir(p.work)] +
    MountCommands(p.union, ["mount", "--types", "overlayfs", "--options", OverlayOptions(p), "none"])
  }

  /** `_InstallPackages`. */
  function InstallCommands(chrootPath: string): seq<Command>
  {
    [Exec(["chroot", chrootPath, "apt-get", "install", "--assume-yes"] + BasePackages),
     Exec(["chroot", chrootPath, "apt-get", "clean"])]
  }

  /** `_InstallIconograph`. */
  function IconographCommands(chrootPath: string): seq<Command>
  {
    [Exec(["chroot", chrootPath, "git", "clone", IconographRepository])]
  }

  /** The interactive shell, when asked for. */
  function ShellCommands(cfg: BuildConfig): seq<Command>
  {
    if cfg.shell then [Exec(["bash"])] else []
  }

  /** `_Squash`, writing the chroot to `squashfs`. */
  function SquashCommands(chrootPath: string, squashfs: string): seq<Command>
  {
    [Exec(["mksquashfs", chrootPath, squashfs, "-noappend"])]
  }

  /** `_FixGrub`: copy the grub template over the ISO's loopback
      configuration. */
  function FixGrubCommands(grubTemplate: string, loopback: string): seq<Command>
  {
    [CopyFile(grubTemplate, loopback)]
  }

  /** `_CreateISO`. */
  function CreateIsoCommands(cfg: BuildConfig, unionPath: string): seq<Command>
  {
    [GrubMkrescue(cfg, unionPath)]
  }

  function GrubMkrescue(cfg: BuildConfig, unionPath: string): Command
  {
    Exec(["grub-mkrescue", "--output=" + cfg.destIso, unionPath])
  }

  /** Every command of `_BuildImage` before the ISO is written. */
  function BeforeIsoCommands(cfg: BuildConfig, p: Layout): seq<Command>
  {
    [MakeTempDir] +
    DebootstrapCommands(cfg, p.chroot) +
    UnionCommands(cfg, p) +
    InstallCommands(p.chroot) +
    IconographCommands(p.chroot) +
    ShellCommands(cfg) +
    SquashCommands(p.chroot, p.squashfs) +
    FixGrubCommands(p.grubTemplate, p.loopback)
  }

  /** `_BuildImage`: the stages in their fixed order. */
  function BuildCommands(cfg: BuildConfig, p: Layout): seq<Command>
  {
    BeforeIsoCommands(cfg, p) + CreateIsoCommands(cfg, p.union)
  }

  /** The temp root, the chroot and the union: everything up to the first
      command run inside the chroot. */
  function ProvisionCommands(cfg: BuildConfig, p: Layout): seq<Command>
  {
    [MakeTempDir] + DebootstrapCommands(cfg, p.chroot) + UnionCommands(cfg, p)
  }

  /** The commands run inside the chroot `chrootPath`. */
  function CustomizeCommands(cfg: BuildConfig, chrootPath: string): seq<Command>
  {
    InstallCommands(chrootPath) + IconographCommands(chrootPath) + ShellCommands(cfg)
  }

  /** From the squash of `chrootPath` to the ISO written from `unionPath`. */
  function FinishCommands(cfg: BuildConfig, chrootPath: string, unionPath: string): seq<Command>
  {
    SquashCommands(chrootPath, Join(Join(unionPath, "casper"), "filesystem.squashfs")) +
    FixGrubCommands(Join(Join(cfg.icoServerPath, "iso_files"), "grub.cfg"),
                    Join(Join(Join(unionPath, "boot"), "grub"), "loopback.cfg")) +
    CreateIsoCommands(cfg, unionPath)
  }

  // ---------------------------------------------------------------------
  // The ledger and the cleanup

  predicate IsMount(c: Command)
  {
    c.Exec? && |c.args| > 1 && c.args[0] == "mount"
  }

  /** The mount points of the mount commands of `cmds`, in order: the last
      argument of each. */
  function MountPoints(cmds: seq<Command>): seq<string>
  {
    if cmds == [] then [] else MountPoint(cmds[0]) + MountPoints(cmds[1..])
  }

  function MountPoint(c: Command): seq<string>
  {
    if IsMount(c) then [c.args[|c.args| - 1]] else []
  }

  /** Definition of the commands of the unmount loop, one `umount` per
      registered path in registration order; the contract spells it out
      element by element. */
  function UmountCommands(paths: seq<string>): (cs: seq<Command>)
    ensures |cs| == |paths| && forall i :: 0 <= i < |paths| ==> cs[i] == Exec(["umount", paths[i]])
  {
    seq(|paths|, i requires 0 <= i < |paths| => Exec(["umount", paths[i]]))
  }

  /** Definition of the commands of the removal loop, one tree removal per
      registered tree in registration order; the contract spells it out
      element by element. */
  function RemoveTreeCommands(paths: seq<string>): (cs: seq<Command>)
    ensures |cs| == |paths| && forall i :: 0 <= i < |paths| ==> cs[i] == RemoveTree(paths[i])
  {
    seq(|paths|, i requires 0 <= i < |paths| => RemoveTree(paths[i]))
  }

  /** The `finally` block: unmount every registered path in registration
      order, then remove every registered tree. */
  function CleanupCommands(umount: seq<string>, rmtree: seq<string>): seq<Command>
  {
    UmountCommands(umount) + RemoveTreeCommands(rmtree)
  }

  /** The commands a sequence attempts and the failing command it raises,
      if any. */
  datatype Outcome = Outcome(attempted: seq<Command>, result: Result<(), Command>)

  function RunAll(cmds: seq<Command>, failing: set<nat>, at: nat): Outcome
  {
    var tried := Attempted(cmds, failing, at);
    Outcome(tried, if AllOk(cmds, failing, at) then Ok(()) else Err(tried[|tried| - 1]))
  }

  /** What `BuildImage` does: the commands it attempts, the ledger it leaves
      and the command whose failure it raises, if any. */
  datatype BuildOutcome = BuildOutcome(
    attempted: seq<Command>,
    umount: seq<string>,
    rmtree: seq<string>,
    result: Result<(), Command>)

  /** `BuildImage` from log position `at`, on a builder whose ledger holds
      `umount0` and `rmtree0`. */
  function BuildImageRun(cfg: BuildConfig, p: Layout, failing: set<nat>, at: nat,
                         umount0: seq<string>, rmtree0: seq<string>): BuildOutcome
  {
    RunAndClean(BuildCommands(cfg, p), p.root, failing, at, umount0, rmtree0)
  }

  /** The commands `build` run from log position `at`, then the cleanup: the
      build registers the temp root `root` once its first command (the
      `mkdtemp`) succeeded and each mount point once its mount succeeded. */
  function RunAndClean(build: seq<Command>, root: string, failing: set<nat>, at: nat,
                       umount0: seq<string>, rmtree0: seq<string>): BuildOutcome
  {
    Conclude(RunAll(build, failing, at),
             umount0 + MountPoints(Done(build, failing, at)),
             rmtree0 + (if at in failing then [] else [root]),
             failing, at)
  }

  /** `RunAndClean` is the build's outcome followed by the cleanup of the
      ledger it leaves, the cleanup starting where the build stopped. */
  lemma RunAndCleanIs(build: seq<Command>, root: string, failing: set<nat>, at: nat,
                      umount0: seq<string>, rmtree0: seq<string>, cleanup: seq<Command>, end: nat)
    requires cleanup == CleanupCommands(umount0 + MountPoints(Done(build, failing, at)),
                                        rmtree0 + (if at in failing then [] else [root]))
    requires end == at + |RunAll(build, failing, at).attempted|
    ensures var o := RunAndClean(build, root, failing, at, umount0, rmtree0);
      && o.attempted == RunAll(build, failing, at).attempted + RunAll(cleanup, failing, end).attempted
      && o.umount == umount0 + MountPoints(Done(build, failing, at))
      && o.rmtree == rmtree0 + (if at in failing then [] else [root])
      && o.result == if RunAll(cleanup, failing, end).result.Err? then RunAll(cleanup, failing, end).result
                     else RunAll(build, failing, at).result
  {
  }

  /** The `finally` block after a build that went as `build` and left the
      ledger `umount`, `rmtree`: an exception of the cleanup replaces one of
      the build. */
  function Conclude(build: Outcome, umount: seq<string>, rmtree: seq<string>, failing: set<nat>, at: nat): BuildOutcome
  {
    var cleanup := RunAll(CleanupCommands(umount, rmtree), failing, at + |build.attempted|);
    BuildOutcome(
      build.attempted + cleanup.attempted, umount, rmtree,
      if cleanup.result.Err? then cleanup.result else build.result)
  }

  // ---------------------------------------------------------------------
  // Properties of the build

  /** `_BuildImage` is its three groups of stages one after the other. */
  lemma StagesGrouped(cfg: BuildConfig, root: string)
    ensures var p := BuildLayout(cfg, root);
      BuildCommands(cfg, p) ==
      ProvisionCommands(cfg, p) + CustomizeCommands(cfg, p.chroot) + FinishCommands(cfg, p.chroot, p.union)
  {
    var p := BuildLayout(cfg, root);
    var provision := ProvisionCommands(cfg, p);
    var install, iconograph, shell := InstallCommands(p.chroot), IconographCommands(p.chroot), ShellCommands(cfg);
    var squash, fixGrub, iso := SquashCommands(p.chroot, p.squashfs), FixGrubCommands(p.grubTemplate, p.loopback),
                                CreateIsoCommands(cfg, p.union);
    Assoc(provision, install, iconograph);
    Assoc(provision, install + iconograph, shell);
    var customized := provision + CustomizeCommands(cfg, p.chroot);
    Assoc(customized, squash, fixGrub);
    Assoc(customized, squash + fixGrub, iso);
  }

  lemma {:induction false} MountPointsAppend(a: seq<Command>, b: seq<Command>)
    ensures MountPoints(a + b) == MountPoints(a) + MountPoints(b)
  {
    if a != [] {
      assert (a + b)[0] == a[0];
      assert (a + b)[1..] == a[1..] + b;
      MountPointsAppend(a[1..], b);
      assert MountPoints(a + b) == MountPoint(a[0]) + (MountPoints(a[1..]) + MountPoints(b));
      Assoc(MountPoint(a[0]), MountPoints(a[1..]), MountPoints(b));
    } else {
      assert a + b == b;
    }
  }

  /** After a sequence `p` that fully succeeded, the ledger of `p + s`
      registers the mounts of `p`, then those of `s` that succeeded. */
  lemma LedgerAppend(p: seq<Command>, s: seq<Command>, failing: set<nat>, at: nat, mid: nat, u0: seq<string>)
    requires AllOk(p, failing, at) && mid == at + |p|
    ensures u0 + MountPoints(Done(p + s, failing, at))
         == (u0 + MountPoints(Done(p, failing, at))) + MountPoints(Done(s, failing, mid))
  {
    DoneAppend(p, s, failing, at);
    assert Done(p, failing, at) == p;
    var rest := Done(s, failing, mid);
    MountPointsAppend(p, rest);
    Assoc(u0, MountPoints(p), MountPoints(rest));
  }

  lemma MountPointsPrefix(a: seq<Command>, b: seq<Command>)
    requires a <= b
    ensures MountPoints(a) <= MountPoints(b)
  {
    assert b == a + b[|a|..];
    MountPointsAppend(a, b[|a|..]);
  }

  lemma MountPointsOne(c: Command)
    ensures MountPoints([c]) == MountPoint(c)
  {
    assert [c][1..] == [];
  }

  lemma MountPointsTwo(c1: Command, c2: Command)
    ensures MountPoints([c1, c2]) == MountPoint(c1) + MountPoint(c2)
  {
    assert [c1, c2][1..] == [c2];
    MountPointsOne(c2);
  }

  lemma MountCommandsPoints(dir: string, mount: seq<string>)
    requires |mount| > 0 && mount[0] == "mount"
    ensures MountPoints(MountCommands(dir, mount)) == [dir]
  {
    var c := Exec(mount + [dir]);
    assert IsMount(c) && c.args[|c.args| - 1] == dir;
    MountPointsTwo(MakeDir(dir), c);
  }

  /** `_CreateUnion` mounts the source ISO, the tmpfs and the overlay, in
      that order. */
  lemma UnionMounts(cfg: BuildConfig, p: Layout)
    ensures MountPoints(UnionCommands(cfg, p)) == [p.iso, p.tmpfs, p.union]
  {
    var isoMount := ["mount", "--options", "loop,ro", cfg.sourceIso];
    var tmpfsMount := ["mount", "--types", "tmpfs", "none"];
    var unionMount := ["mount", "--types", "overlayfs", "--options", OverlayOptions(p), "none"];
    var iso, tmpfs := MountCommands(p.iso, isoMount), MountCommands(p.tmpfs, tmpfsMount);
    var upper, work := [MakeDir(p.upper)], [MakeDir(p.work)];
    MountCommandsPoints(p.iso, isoMount);
    MountCommandsPoints(p.tmpfs, tmpfsMount);
    MountCommandsPoints(p.union, unionMount);
    MountPointsOne(MakeDir(p.upper));
    MountPointsOne(MakeDir(p.work));
    MountPointsAppend(iso, tmpfs);
    MountPointsAppend(iso + tmpfs, upper);
    MountPointsAppend(iso + tmpfs + upper, work);
    MountPointsAppend(iso + tmpfs + upper + work, MountCommands(p.union, unionMount));
    assert [p.iso] + [p.tmpfs] + [] + [] + [p.union] == [p.iso, p.tmpfs, p.union];
  }

  /** No stage but `_CreateUnion` mounts anything. */
  lemma OtherStagesMountNothing(cfg: BuildConfig, p: Layout)
    ensures MountPoints([MakeTempDir]) == []
    ensures MountPoints(DebootstrapCommands(cfg, p.chroot)) == []
    ensures MountPoints(InstallCommands(p.chroot)) == []
    ensures MountPoints(IconographCommands(p.chroot)) == []
    ensures MountPoints(ShellCommands(cfg)) == []
    ensures MountPoints(SquashCommands(p.chroot, p.squashfs)) == []
    ensures MountPoints(FixGrubCommands(p.grubTemplate, p.loopback)) == []
    ensures MountPoints(CreateIsoCommands(cfg, p.union)) == []
  {
    MountPointsOne(MakeTempDir);
    var deboot := DebootstrapCommands(cfg, p.chroot);
    MountPointsTwo(deboot[0], deboot[1]);
    var install := InstallCommands(p.chroot);
    MountPointsTwo(install[0], install[1]);
    MountPointsOne(IconographCommands(p.chroot)[0]);
    MountPointsOne(Exec(["bash"]));
    MountPointsOne(SquashCommands(p.chroot, p.squashfs)[0]);
    MountPointsOne(CopyFile(p.grubTemplate, p.loopback));
    MountPointsOne(GrubMkrescue(cfg, p.union));
  }

  /** A complete build mounts the source ISO, the tmpfs and the overlay, in
      that order, and nothing else. */
  lemma BuildMounts(cfg: BuildConfig, p: Layout)
    ensures MountPoints(BuildCommands(cfg, p)) == [p.iso, p.tmpfs, p.union]
  {
    UnionMounts(cfg, p);
    OtherStagesMountNothing(cfg, p);
    OnlyThirdMounts([MakeTempDir], DebootstrapCommands(cfg, p.chroot), UnionCommands(cfg, p),
                    InstallCommands(p.chroot), IconographCommands(p.chroot), ShellCommands(cfg),
                    SquashCommands(p.chroot, p.squashfs), FixGrubCommands(p.grubTemplate, p.loopback),
                    CreateIsoCommands(cfg, p.union));
  }

  /** Nine stages of which only the third mounts anything register the
      mounts of that one. */
  lemma OnlyThirdMounts(s1: seq<Command>, s2: seq<Command>, s3: seq<Command>, s4: seq<Command>, s5: seq<Command>,
                        s6: seq<Command>, s7: seq<Command>, s8: seq<Command>, s9: seq<Command>)
    requires MountPoints(s1) == [] && MountPoints(s2) == []
    requires MountPoints(s4) == [] && MountPoints(s5) == [] && MountPoints(s6) == []
    requires MountPoints(s7) == [] && MountPoints(s8) == [] && MountPoints(s9) == []
    ensures MountPoints(s1 + s2 + s3 + s4 + s5 + s6 + s7 + s8 + s9) == MountPoints(s3)
  {
    var p2 := s1 + s2;
    var p3 := p2 + s3;
    var p4 := p3 + s4;
    var p5 := p4 + s5;
    var p6 := p5 + s6;
    var p7 := p6 + s7;
    var p8 := p7 + s8;
    MountPointsAppend(s1, s2);
    MountPointsAppend(p2, s3);
    MountPointsAppend(p3, s4);
    MountPointsAppend(p4, s5);
    MountPointsAppend(p5, s6);
    MountPointsAppend(p6, s7);
    MountPointsAppend(p7, s8);
    MountPointsAppend(p8, s9);
  }

  /** The ledger of mounts a build leaves holds the mount points of the
      mounts that succeeded: a prefix of iso, tmpfs, union, all three when
      the whole build succeeded. */
  lemma LedgerIsPrefix(cfg: BuildConfig, p: Layout, failing: set<nat>, at: nat)
    ensures MountPoints(Done(BuildCommands(cfg, p), failing, at)) <= [p.iso, p.tmpfs, p.union]
    ensures AllOk(BuildCommands(cfg, p), failing, at) ==>
      MountPoints(Done(BuildCommands(cfg, p), failing, at)) == [p.iso, p.tmpfs, p.union]
  {
    var b := BuildCommands(cfg, p);
    BuildMounts(cfg, p);
    MountPointsPrefix(Done(b, failing, at), b);
    assert AllOk(b, failing, at) ==> Done(b, failing, at) == b;
  }

  /** The overlay's lower directory is the source ISO's mount point and its
      upper and work directories lie inside the tmpfs, all under the temp
      root. */
  lemma OverlayLayers(cfg: BuildConfig, root: string)
    requires root != [] && root[|root| - 1] != '/'
    ensures OverlayOptions(BuildLayout(cfg, root)) ==
      "lowerdir=" + (root + "/" + "iso") +
      ",upperdir=" + (root + "/" + "tmpfs" + "/" + "upper") +
      ",workdir=" + (root + "/" + "tmpfs" + "/" + "work")
  {
    var tmpfs := Join(root, "tmpfs");
    JoinBelow(root, "iso");
    JoinBelow(root, "tmpfs");
    JoinBelow(tmpfs, "upper");
    JoinBelow(tmpfs, "work");
  }

  lemma NoGrubBefore(cfg: BuildConfig, p: Layout)
    ensures GrubMkrescue(cfg, p.union) !in BeforeIsoCommands(cfg, p)
  {
    var g := GrubMkrescue(cfg, p.union);
    assert g !in DebootstrapCommands(cfg, p.chroot);
    assert g !in UnionCommands(cfg, p);
    assert g !in InstallCommands(p.chroot);
    assert g !in IconographCommands(p.chroot);
    assert g !in SquashCommands(p.chroot, p.squashfs);
  }

  /** `grub-mkrescue`, the one command that writes the destination ISO, is
      attempted exactly when every command before it succeeded. */
  lemma IsoOnlyAfterAllStages(cfg: BuildConfig, p: Layout, failing: set<nat>, at: nat)
    ensures GrubMkrescue(cfg, p.union) in Attempted(BuildCommands(cfg, p), failing, at) <==>
      AllOk(BeforeIsoCommands(cfg, p), failing, at)
  {
    var before, g := BeforeIsoCommands(cfg, p), GrubMkrescue(cfg, p.union);
    NoGrubBefore(cfg, p);
    AttemptedAppend(before, [g], failing, at);
    RunOne(g, failing, at + |before|);
  }

  /** The interactive shell runs only when asked for. */
  lemma ShellOnlyWhenAsked(cfg: BuildConfig, p: Layout)
    ensures Exec(["bash"]) in BuildCommands(cfg, p) <==> cfg.shell
  {
    NoShellInUnion(cfg, p);
    NoShellInInstall(p.chroot);
    NoShellInOthers(cfg, p);
    var p1 := [MakeTempDir] + DebootstrapCommands(cfg, p.chroot);
    var p2 := p1 + UnionCommands(cfg, p);
    var p3 := p2 + InstallCommands(p.chroot);
    var p4 := p3 + IconographCommands(p.chroot);
    var p5 := p4 + ShellCommands(cfg);
    var p6 := p5 + SquashCommands(p.chroot, p.squashfs);
    var p7 := p6 + FixGrubCommands(p.grubTemplate, p.loopback);
    assert Exec(["bash"]) !in p4;
    assert Exec(["bash"]) in p5 <==> cfg.shell;
  }

  lemma NoShellInUnion(cfg: BuildConfig, p: Layout)
    ensures Exec(["bash"]) !in UnionCommands(cfg, p)
  {
  }

  lemma NoShellInInstall(chrootPath: string)
    ensures Exec(["bash"]) !in InstallCommands(chrootPath)
  {
    assert |["chroot", chrootPath, "apt-get", "install", "--assume-yes"] + BasePackages| > 1;
  }

  lemma NoShellInOthers(cfg: BuildConfig, p: Layout)
    ensures Exec(["bash"]) !in [MakeTempDir] + DebootstrapCommands(cfg, p.chroot)
    ensures Exec(["bash"]) !in IconographCommands(p.chroot)
    ensures Exec(["bash"]) !in SquashCommands(p.chroot, p.squashfs)
    ensures Exec(["bash"]) !in FixGrubCommands(p.grubTemplate, p.loopback)
    ensures Exec(["bash"]) !in CreateIsoCommands(cfg, p.union)
  {
  }

  /** The temp root is in the ledger of trees before debootstrap or any mount
      is attempted. */
  lemma TempRootFirst(cfg: BuildConfig, p: Layout, failing: set<nat>, at: nat,
                      umount0: seq<string>, rmtree0: seq<string>)
    ensures |Attempted(BuildCommands(cfg, p), failing, at)| > 1 ==>
      BuildImageRun(cfg, p, failing, at, umount0, rmtree0).rmtree == rmtree0 + [p.root]
  {
    var tried := Attempted(BuildCommands(cfg, p), failing, at);
    if |tried| > 1 {
      assert at !in failing;
    }
  }

  /** The cleanup succeeds exactly when no unmount and no tree removal
      fails, and then it has unmounted every registered path and removed
      every registered tree, each once and in registration order. */
  lemma CleanupComplete(umount: seq<string>, rmtree: seq<string>, failing: set<nat>, at: nat)
    ensures var o := RunAll(CleanupCommands(umount, rmtree), failing, at);
      && (o.result.Ok? <==> forall j :: at <= j < at + |umount| + |rmtree| ==> j !in failing)
      && (o.result.Ok? ==> o.attempted == UmountCommands(umount) + RemoveTreeCommands(rmtree))
  {
  }

  /** The first unmount that fails raises out of the cleanup: no later
      unmount and no tree removal is attempted, and that unmount is what
      the cleanup raises. */
  lemma FailedUnmountStopsCleanup(umount: seq<string>, rmtree: seq<string>, failing: set<nat>, at: nat, i: nat)
    requires i < |umount| && (forall j :: at <= j < at + i ==> j !in failing) && at + i in failing
    ensures var o := RunAll(CleanupCommands(umount, rmtree), failing, at);
      o.attempted == UmountCommands(umount[..i + 1]) && o.result == Err(Exec(["umount", umount[i]]))
  {
    var cleanup := CleanupCommands(umount, rmtree);
    FirstFailureAt(cleanup, i, failing, at);
    assert cleanup[..i + 1] == UmountCommands(umount[..i + 1]);
  }

  /** The first tree removal that fails raises too: every registered path
      was unmounted, no later tree is removed. */
  lemma FailedRemovalStopsCleanup(umount: seq<string>, rmtree: seq<string>, failing: set<nat>, at: nat, i: nat)
    requires i < |rmtree| && (forall j :: at <= j < at + |umount| + i ==> j !in failing) && at + |umount| + i in failing
    ensures var o := RunAll(CleanupCommands(umount, rmtree), failing, at);
      && o.attempted == UmountCommands(umount) + RemoveTreeCommands(rmtree[..i + 1])
      && o.result == Err(RemoveTree(rmtree[i]))
  {
    var cleanup := CleanupCommands(umount, rmtree);
    FirstFailureAt(cleanup, |umount| + i, failing, at);
    assert cleanup[..|umount| + i + 1] == UmountCommands(umount) + RemoveTreeCommands(rmtree[..i + 1]);
  }

  /** The cleanup starts right after the build stops, whatever it stopped on:
      with the first registered mount, or the first registered tree when
      nothing is mounted. */
  lemma CleanupAlwaysRuns(build: Outcome, umount: seq<string>, rmtree: seq<string>, failing: set<nat>, at: nat)
    ensures var o := Conclude(build, umount, rmtree, failing, at);
      var k := |build.attempted|;
      && o.attempted[..k] == build.attempted
      && (umount != [] ==> |o.attempted| > k && o.attempted[k] == Exec(["umount", umount[0]]))
      && (umount == [] && rmtree != [] ==> |o.attempted| > k && o.attempted[k] == RemoveTree(rmtree[0]))
  {
    var k := |build.attempted|;
    var cleanup := CleanupCommands(umount, rmtree);
    var cleaned := Attempted(cleanup, failing, at + k);
    assert (build.attempted + cleaned)[..k] == build.attempted;
    if cleanup != [] {
      if AllOk(cleanup, failing, at + k) {
        assert cleaned == cleanup;
      }
      assert cleaned[0] == cleanup[0];
    }
  }

  /** An exception of the cleanup replaces the build's; the build's
      exception, if any, survives a cleanup that succeeds. */
  lemma CleanupErrorWins(build: Outcome, umount: seq<string>, rmtree: seq<string>, failing: set<nat>, at: nat)
    ensures var o := Conclude(build, umount, rmtree, failing, at);
      var k := at + |build.attempted|;
      && (!(forall j :: k <= j < k + |umount| + |rmtree| ==> j !in failing) ==>
            o.result.Err? && o.result.error in CleanupCommands(umount, rmtree))
      && ((forall j :: k <= j < k + |umount| + |rmtree| ==> j !in failing) ==> o.result == build.result)
  {
    var cleanup := CleanupCommands(umount, rmtree);
    var k := at + |build.attempted|;
    var cleaned := Attempted(cleanup, failing, k);
    if !AllOk(cleanup, failing, k) {
      assert cleaned[|cleaned| - 1] == cleanup[|cleaned| - 1];
    }
  }

  // The builder

  /** `ImageBuilder`: its settings, its ledger of mounts and trees, and the
      log of the commands it has attempted. `tempRoot` is the directory
      `mkdtemp` creates. A command that fails raises, so every later step of
      the same sequence runs only `if ok`. */
  class ImageBuilder {
    const cfg: BuildConfig
    const tempRoot: string
    const failing: set<nat>
    var umount: seq<string>
    var rmtree: seq<string>
    var log: seq<Command>

    constructor (cfg: BuildConfig, tempRoot: string, failing: set<nat>)
      ensures this.cfg == cfg && this.tempRoot == tempRoot && this.failing == failing
      ensures umount == [] && rmtree == [] && log == []
    {
      this.cfg := cfg;
      this.tempRoot := tempRoot;
      this.failing := failing;
      umount := [];
      rmtree := [];
      log := [];
    }

    /** The log went from `before` to `after` by running `cmds`, and `ok`
        tells whether all of them succeeded. */
    predicate Tried(cmds: seq<Command>, before: seq<Command>, after: seq<Command>, ok: bool)
    {
      after == before + Attempted(cmds, failing, |before|) && ok == AllOk(cmds, failing, |before|)
    }

    /** `Tried`, and the ledger of mounts went from `u0` to `u` by
        registering the mount point of each mount that succeeded. */
    predicate Ran(cmds: seq<Command>, t0: seq<Command>, t: seq<Command>, u0: seq<string>, u: seq<string>, ok: bool)
    {
      Tried(cmds, t0, t, ok) && u == u0 + MountPoints(Done(cmds, failing, |t0|))
    }

    /** A command that mounts nothing leaves the ledger as it was. */
    lemma Single(c: Command, t0: seq<Command>, t: seq<Command>, u: seq<string>, ok: bool)
      requires !IsMount(c) && t == t0 + [c] && ok == (|t0| !in failing)
      ensures Ran([c], t0, t, u, u, ok)
    {
      RunOne(c, failing, |t0|);
      assert [c][..0] == [] && [c][..1] == [c];
      assert MountPoints([c]) == [];
    }

    /** A mount is registered once it succeeded. */
    lemma SingleMount(c: Command, t0: seq<Command>, t: seq<Command>, u0: seq<string>, u: seq<string>, ok: bool)
      requires IsMount(c) && t == t0 + [c] && ok == (|t0| !in failing)
      requires u == u0 + (if ok then [c.args[|c.args| - 1]] else [])
      ensures Ran([c], t0, t, u0, u, ok)
    {
      RunOne(c, failing, |t0|);
      assert [c][..0] == [] && [c][..1] == [c];
      assert MountPoints([c]) == [c.args[|c.args| - 1]];
    }

    /** Running `p` and then, only if all of it succeeded, `s`, is running
        `p + s`. */
    lemma Next(p: seq<Command>, s: seq<Command>, t0: seq<Command>, t1: seq<Command>, t2: seq<Command>,
               u0: seq<string>, u1: seq<string>, u2: seq<string>, ok1: bool, ok2: bool)
      requires Ran(p, t0, t1, u0, u1, ok1)
      requires ok1 ==> Ran(s, t1, t2, u1, u2, ok2)
      requires !ok1 ==> t2 == t1 && u2 == u1 && !ok2
      ensures Ran(p + s, t0, t2, u0, u2, ok2)
    {
      if ok1 {
        NextOk(p, s, t0, t1, t2, u0, u1, u2, ok2);
      } else {
        NextStop(p, s, t0, t1, u0, u1);
      }
    }

    lemma NextOk(p: seq<Command>, s: seq<Command>, t0: seq<Command>, t1: seq<Command>, t2: seq<Command>,
                 u0: seq<string>, u1: seq<string>, u2: seq<string>, ok: bool)
      requires Ran(p, t0, t1, u0, u1, true) && Ran(s, t1, t2, u1, u2, ok)
      ensures Ran(p + s, t0, t2, u0, u2, ok)
    {
      assert t1 == t0 + p;
      TriedNext(p, s, t0, t1, t2, true, ok);
      LedgerAppend(p, s, failing, |t0|, |t1|, u0);
    }

    lemma NextStop(p: seq<Command>, s: seq<Command>, t0: seq<Command>, t1: seq<Command>,
                   u0: seq<string>, u1: seq<string>)
      requires Ran(p, t0, t1, u0, u1, false)
      ensures Ran(p + s, t0, t1, u0, u1, false)
    {
      var at := |t0|;
      AttemptedAppend(p, s, failing, at);
      AllOkAppend(p, s, failing, at);
      DoneAppend(p, s, failing, at);
    }

    /** One step of a sequence that stops at its first failure: after the
        first `i` commands of `cmds` succeeded, `cmds[i]` either succeeds
        too or ends the sequence. */
    lemma Step(cmds: seq<Command>, t0: seq<Command>, i: nat, ti: seq<Command>, t: seq<Command>, ok: bool)
      requires i < |cmds| && ti == t0 + cmds[..i] && AllOk(cmds[..i], failing, |t0|)
      requires t == ti + [cmds[i]] && ok == (|ti| !in failing)
      ensures ok ==> t == t0 + cmds[..i + 1] && AllOk(cmds[..i + 1], failing, |t0|)
      ensures !ok ==> Tried(cmds, t0, t, false)
    {
      if ok {
        StepOk(cmds, t0, i, ti, t);
      } else {
        StepStop(cmds, t0, i, ti, t);
      }
    }

    lemma StepOk(cmds: seq<Command>, t0: seq<Command>, i: nat, ti: seq<Command>, t: seq<Command>)
      requires i < |cmds| && ti == t0 + cmds[..i] && AllOk(cmds[..i], failing, |t0|)
      requires t == ti + [cmds[i]] && |ti| !in failing
      ensures t == t0 + cmds[..i + 1] && AllOk(cmds[..i + 1], failing, |t0|)
    {
      assert cmds[..i + 1] == cmds[..i] + [cmds[i]];
      RunOne(cmds[i], failing, |ti|);
      AllOkAppend(cmds[..i], [cmds[i]], failing, |t0|);
    }

    lemma StepStop(cmds: seq<Command>, t0: seq<Command>, i: nat, ti: seq<Command>, t: seq<Command>)
      requires i < |cmds| && ti == t0 + cmds[..i] && AllOk(cmds[..i], failing, |t0|)
      requires t == ti + [cmds[i]] && |ti| in failing
      ensures Tried(cmds, t0, t, false)
    {
      FirstFailureAt(cmds, i, failing, |t0|);
      assert cmds[..i + 1] == cmds[..i] + [cmds[i]];
      Assoc(t0, cmds[..i], [cmds[i]]);
    }

    /** `_Exec`, `os.mkdir` and the other single commands: `check_call`
        raises on a non-zero exit. */
    method Execute(c: Command) returns (ok: bool)
      modifies this
      ensures log == old(log) + [c] && ok == (|old(log)| !in failing)
      ensures umount == old(umount) && rmtree == old(rmtree)
    {
      ok := |log| !in failing;
      log := log + [c];
    }

    /** `_Debootstrap`. */
    method Debootstrap(root: string) returns (ok: bool, path: string)
      modifies this
      ensures path == Join(root, "chroot") && Ran(DebootstrapCommands(cfg, path), old(log), log, old(umount), umount, ok)
      ensures rmtree == old(rmtree)
    {
      path := Join(root, "chroot");
      ok := RunPair(MakeDir(path), Exec(["debootstrap", "--variant=buildd", "--arch", cfg.arch, cfg.release, path, cfg.archive]));
    }

    /** The step `_CreateUnion` takes three times: create the directory
        `dir`, mount something on it, and register it for unmounting once
        the mount succeeded. */
    method MountAt(dir: string, mount: seq<string>) returns (ok: bool)
      requires |mount| > 0 && mount[0] == "mount"
      modifies this
      ensures Ran(MountCommands(dir, mount), old(log), log, old(umount), umount, ok)
      ensures rmtree == old(rmtree)
    {
      ghost var t0, u0 := log, umount;
      var mkdir, mnt := MakeDir(dir), Exec(mount + [dir]);
      ok := Execute(mkdir);
      Single(mkdir, t0, log, u0, ok);
      ghost var t1 := log;
      var next := false;
      if ok {
        next := Execute(mnt);
        if next {
          umount := umount + [dir];
        }
        SingleMount(mnt, t1, log, u0, umount, next);
      }
      Next([mkdir], [mnt], t0, t1, log, u0, u0, umount, ok, next);
      assert [mkdir] + [mnt] == MountCommands(dir, mount);
      ok := next;
    }

    /** `_CreateUnion`: each mount point is registered right after its mount
        succeeds. */
    method CreateUnion(root: string) returns (ok: bool, unionPath: string)
      modifies this
      ensures unionPath == BuildLayout(cfg, root).union
      ensures Ran(UnionCommands(cfg, BuildLayout(cfg, root)), old(log), log, old(umount), umount, ok)
      ensures rmtree == old(rmtree)
    {
      ghost var t0, u0 := log, umount;
      var isoPath := Join(root, "iso");
      ok := MountAt(isoPath, ["mount", "--options", "loop,ro", cfg.sourceIso]);
      ghost var done := MountCommands(isoPath, ["mount", "--options", "loop,ro", cfg.sourceIso]);

      var tmpfsPath := Join(root, "tmpfs");
      ghost var t1, u1 := log, umount;
      var next := false;
      if ok {
        next := MountAt(tmpfsPath, ["mount", "--types", "tmpfs", "none"]);
      }
      ghost var stage := MountCommands(tmpfsPath, ["mount", "--types", "tmpfs", "none"]);
      Next(done, stage, t0, t1, log, u0, u1, umount, ok, next);
      ok, done := next, done + stage;

      var upperPath := Join(tmpfsPath, "upper");
      t1, u1, next := log, umount, false;
      if ok {
        next := Execute(MakeDir(upperPath));
        Single(MakeDir(upperPath), t1, log, u1, next);
      }
      Next(done, [MakeDir(upperPath)], t0, t1, log, u0, u1, umount, ok, next);
      ok, done := next, done + [MakeDir(upperPath)];

      var workPath := Join(tmpfsPath, "work");
      t1, u1, next := log, umount, false;
      if ok {
        next := Execute(MakeDir(workPath));
        Single(MakeDir(workPath), t1, log, u1, next);
      }
      Next(done, [MakeDir(workPath)], t0, t1, log, u0, u1, umount, ok, next);
      ok, done := next, done + [MakeDir(workPath)];

      unionPath := Join(root, "union");
      var options := "lowerdir=" + isoPath + ",upperdir=" + upperPath + ",workdir=" + workPath;
      t1, u1, next := log, umount, false;
      if ok {
        next := MountAt(unionPath, ["mount", "--types", "overlayfs", "--options", options, "none"]);
      }
      stage := MountCommands(unionPath, ["mount", "--types", "overlayfs", "--options", options, "none"]);
      Next(done, stage, t0, t1, log, u0, u1, umount, ok, next);
      ok := next;
    }

    /** `_InstallPackages`. */
    method InstallPackages(chrootPath: string) returns (ok: bool)
      modifies this
      ensures Ran(InstallCommands(chrootPath), old(log), log, old(umount), umount, ok)
      ensures rmtree == old(rmtree)
    {
      ok := RunPair(Exec(["chroot", chrootPath, "apt-get", "install", "--assume-yes"] + BasePackages),
                    Exec(["chroot", chrootPath, "apt-get", "clean"]));
    }

    /** A stage of a single command that mounts nothing. */
    method RunSingle(c: Command) returns (ok: bool)
      requires !IsMount(c)
      modifies this
      ensures Ran([c], old(log), log, old(umount), umount, ok)
      ensures rmtree == old(rmtree)
    {
      ghost var t0, u0 := log, umount;
      ok := Execute(c);
      Single(c, t0, log, u0, ok);
    }

    /** Two commands that mount nothing, the second only after the first
        succeeded. */
    method RunPair(c1: Command, c2: Command) returns (ok: bool)
      requires !IsMount(c1) && !IsMount(c2)
      modifies this
      ensures Ran([c1, c2], old(log), log, old(umount), umount, ok)
      ensures rmtree == old(rmtree)
    {
      ghost var t0, u0 := log, umount;
      ok := Execute(c1);
      Single(c1, t0, log, u0, ok);
      ghost var t1 := log;
      var next := false;
      if ok {
        next := Execute(c2);
        Single(c2, t1, log, u0, next);
      }
      Next([c1], [c2], t0, t1, log, u0, u0, umount, ok, next);
      assert [c1] + [c2] == [c1, c2];
      ok := next;
    }

    /** `_InstallIconograph`. */
    method InstallIconograph(chrootPath: string) returns (ok: bool)
      modifies this
      ensures Ran(IconographCommands(chrootPath), old(log), log, old(umount), umount, ok)
      ensures rmtree == old(rmtree)
    {
      ok := RunSingle(Exec(["chroot", chrootPath, "git", "clone", IconographRepository]));
    }

    /** `_Squash`. */
    method Squash(chrootPath: string, unionPath: string) returns (ok: bool)
      modifies this
      ensures Ran(SquashCommands(chrootPath, Join(Join(unionPath, "casper"), "filesystem.squashfs")),
                  old(log), log, old(umount), umount, ok)
      ensures rmtree == old(rmtree)
    {
      ok := RunSingle(Exec(["mksquashfs", chrootPath, Join(Join(unionPath, "casper"), "filesystem.squashfs"), "-noappend"]));
    }

    /** `_FixGrub`: `shutil.copyfile` raises when the copy fails. */
    method FixGrub(unionPath: string) returns (ok: bool)
      modifies this
      ensures Ran(FixGrubCommands(Join(Join(cfg.icoServerPath, "iso_files"), "grub.cfg"),
                                  Join(Join(Join(unionPath, "boot"), "grub"), "loopback.cfg")),
                  old(log), log, old(umount), umount, ok)
      ensures rmtree == old(rmtree)
    {
      ok := RunSingle(CopyFile(Join(Join(cfg.icoServerPath, "iso_files"), "grub.cfg"),
                               Join(Join(Join(unionPath, "boot"), "grub"), "loopback.cfg")));
    }

    /** `_CreateISO`. */
    method CreateIso(unionPath: string) returns (ok: bool)
      modifies this
      ensures Ran(CreateIsoCommands(cfg, unionPath), old(log), log, old(umount), umount, ok)
      ensures rmtree == old(rmtree)
    {
      ok := RunSingle(Exec(["grub-mkrescue", "--output=" + cfg.destIso, unionPath]));
    }

    /** Proof helper: running nothing changes nothing. */
    lemma Nothing(t: seq<Command>, u: seq<string>)
      ensures Ran([], t, t, u, u, true)
    {
      assert t + [] == t && u + [] == u;
    }

    /** `_BuildImage` up to the union: `mkdtemp`, whose directory is
        registered for removal at once, `_Debootstrap` and `_CreateUnion`. */
    method Provision() returns (ok: bool, chrootPath: string, unionPath: string)
      modifies this
      ensures ok ==> chrootPath == BuildLayout(cfg, tempRoot).chroot && unionPath == BuildLayout(cfg, tempRoot).union
      ensures Ran(ProvisionCommands(cfg, BuildLayout(cfg, tempRoot)), old(log), log, old(umount), umount, ok)
      ensures rmtree == old(rmtree) + (if |old(log)| in failing then [] else [tempRoot])
    {
      ghost var p := BuildLayout(cfg, tempRoot);
      ghost var t0, u0 := log, umount;
      ok := Execute(MakeTempDir);
      Single(MakeTempDir, t0, log, u0, ok);
      if ok {
        rmtree := rmtree + [tempRoot];
      }
      chrootPath, unionPath := "", "";
      ghost var t1, u1 := log, umount;
      var next := false;
      if ok {
        next, chrootPath := Debootstrap(tempRoot);
      }
      Next([MakeTempDir], DebootstrapCommands(cfg, p.chroot), t0, t1, log, u0, u1, umount, ok, next);
      ok := next;

      t1, u1, next := log, umount, false;
      if ok {
        next, unionPath := CreateUnion(tempRoot);
      }
      Next([MakeTempDir] + DebootstrapCommands(cfg, p.chroot), UnionCommands(cfg, p), t0, t1, log, u0, u1, umount, ok, next);
      ok := next;
    }

    /** `_InstallPackages`, `_InstallIconograph` and the optional shell, all
        inside the chroot `chrootPath`. */
    method Customize(chrootPath: string) returns (ok: bool)
      modifies this
      ensures Ran(CustomizeCommands(cfg, chrootPath), old(log), log, old(umount), umount, ok)
      ensures rmtree == old(rmtree)
    {
      ghost var t0, u0 := log, umount;
      ok := InstallPackages(chrootPath);
      ghost var t1, u1 := log, umount;
      var next := false;
      if ok {
        next := InstallIconograph(chrootPath);
      }
      Next(InstallCommands(chrootPath), IconographCommands(chrootPath), t0, t1, log, u0, u1, umount, ok, next);
      ok := next;

      t1, u1, next := log, umount, false;
      if ok {
        if cfg.shell {
          next := RunSingle(Exec(["bash"]));
        } else {
          next := true;
          Nothing(log, umount);
        }
      }
      Next(InstallCommands(chrootPath) + IconographCommands(chrootPath), ShellCommands(cfg),
           t0, t1, log, u0, u1, umount, ok, next);
      ok := next;
    }

    /** `_Squash`, `_FixGrub` and `_CreateISO`. */
    method Finish(chrootPath: string, unionPath: string) returns (ok: bool)
      modifies this
      ensures Ran(FinishCommands(cfg, chrootPath, unionPath), old(log), log, old(umount), umount, ok)
      ensures rmtree == old(rmtree)
    {
      ghost var squash := SquashCommands(chrootPath, Join(Join(unionPath, "casper"), "filesystem.squashfs"));
      ghost var fixGrub := FixGrubCommands(Join(Join(cfg.icoServerPath, "iso_files"), "grub.cfg"),
                                           Join(Join(Join(unionPath, "boot"), "grub"), "loopback.cfg"));
      ghost var t0, u0 := log, umount;
      ok := Squash(chrootPath, unionPath);
      ghost var t1, u1 := log, umount;
      var next := false;
      if ok {
        next := FixGrub(unionPath);
      }
      Next(squash, fixGrub, t0, t1, log, u0, u1, umount, ok, next);
      ok := next;

      t1, u1, next := log, umount, false;
      if ok {
        next := CreateIso(unionPath);
      }
      Next(squash + fixGrub, CreateIsoCommands(cfg, unionPath), t0, t1, log, u0, u1, umount, ok, next);
      ok := next;
    }

    /** `_BuildImage`: the stages in their fixed order, each only when every
        command before it succeeded. */
    method BuildImageStages() returns (ok: bool)
      modifies this
      ensures Ran(BuildCommands(cfg, BuildLayout(cfg, tempRoot)), old(log), log, old(umount), umount, ok)
      ensures rmtree == old(rmtree) + (if |old(log)| in failing then [] else [tempRoot])
    {
      ghost var p := BuildLayout(cfg, tempRoot);
      ghost var t0, u0 := log, umount;
      var chrootPath, unionPath;
      ok, chrootPath, unionPath := Provision();
      ghost var t1, u1 := log, umount;
      var next := false;
      if ok {
        next := Customize(chrootPath);
      }
      Next(ProvisionCommands(cfg, p), CustomizeCommands(cfg, p.chroot), t0, t1, log, u0, u1, umount, ok, next);
      ok := next;

      t1, u1, next := log, umount, false;
      if ok {
        next := Finish(chrootPath, unionPath);
      }
      Next(ProvisionCommands(cfg, p) + CustomizeCommands(cfg, p.chroot), FinishCommands(cfg, p.chroot, p.union),
           t0, t1, log, u0, u1, umount, ok, next);
      ok := next;
      StagesGrouped(cfg, tempRoot);
    }

    /** The log, the ledger and the exception after the build `build` and
        the cleanup of the ledger it left. */
    lemma Concluded(build: seq<Command>, root: string, t0: seq<Command>, tb: seq<Command>, t: seq<Command>,
                    u0: seq<string>, u: seq<string>, rm0: seq<string>, rm: seq<string>,
                    builtOk: bool, cleanOk: bool, r: Result<(), Command>)
      requires Ran(build, t0, tb, u0, u, builtOk) && rm == rm0 + (if |t0| in failing then [] else [root])
      requires Tried(CleanupCommands(u, rm), tb, t, cleanOk)
      requires !cleanOk ==> |t| > 0 && r == Err(t[|t| - 1])
      requires cleanOk ==> r == if builtOk then Ok(()) else Err(tb[|tb| - 1])
      ensures var o := RunAndClean(build, root, failing, |t0|, u0, rm0);
        t == t0 + o.attempted && u == o.umount && rm == o.rmtree && r == o.result
    {
      var cleanup := CleanupCommands(u, rm);
      Sequenced(build, cleanup, t0, tb, t, builtOk, cleanOk, r);
      RunAndCleanIs(build, root, failing, |t0|, u0, rm0, cleanup, |tb|);
    }

    /** The log after `build` and then `cleanup`, and the exception of the
        two, the cleanup's replacing the build's. */
    lemma Sequenced(build: seq<Command>, cleanup: seq<Command>, t0: seq<Command>, tb: seq<Command>, t: seq<Command>,
                    builtOk: bool, cleanOk: bool, r: Result<(), Command>)
      requires Tried(build, t0, tb, builtOk) && Tried(cleanup, tb, t, cleanOk)
      requires !cleanOk ==> |t| > 0 && r == Err(t[|t| - 1])
      requires cleanOk ==> r == if builtOk then Ok(()) else Err(tb[|tb| - 1])
      ensures |tb| == |t0| + |RunAll(build, failing, |t0|).attempted|
      ensures t == t0 + (RunAll(build, failing, |t0|).attempted + RunAll(cleanup, failing, |tb|).attempted)
      ensures r == if RunAll(cleanup, failing, |tb|).result.Err? then RunAll(cleanup, failing, |tb|).result
                   else RunAll(build, failing, |t0|).result
    {
      Assoc(t0, Attempted(build, failing, |t0|), Attempted(cleanup, failing, |tb|));
    }

    /** All of `cmds` ran and succeeded. */
    lemma Finished(cmds: seq<Command>, t0: seq<Command>, t: seq<Command>)
      requires t == t0 + cmds[..|cmds|] && AllOk(cmds[..|cmds|], failing, |t0|)
      ensures Tried(cmds, t0, t, true)
    {
      assert cmds[..|cmds|] == cmds;
    }

    /** Running `p` and then, only if all of it succeeded, `s`, is running
        `p + s`, as far as the log is concerned. */
    lemma TriedNext(p: seq<Command>, s: seq<Command>, t0: seq<Command>, t1: seq<Command>, t2: seq<Command>,
                    ok1: bool, ok2: bool)
      requires Tried(p, t0, t1, ok1)
      requires ok1 ==> Tried(s, t1, t2, ok2)
      requires !ok1 ==> t2 == t1 && !ok2
      ensures Tried(p + s, t0, t2, ok2)
    {
      AttemptedAppend(p, s, failing, |t0|);
      AllOkAppend(p, s, failing, |t0|);
      if ok1 {
        Assoc(t0, p, Attempted(s, failing, |t1|));
      }
    }

    /** The first loop of the `finally` block: `umount` every registered
        path in registration order, raising at the first failure. */
    method UnmountAll() returns (r: Result<(), Command>)
      modifies this
      ensures umount == old(umount) && rmtree == old(rmtree)
      ensures Tried(UmountCommands(umount), old(log), log, r.Ok?)
      ensures r.Err? ==> |log| > 0 && r.error == log[|log| - 1]
    {
      ghost var t0, cmds := log, UmountCommands(umount);
      assert cmds[..0] == [] && t0 + [] == t0;
      for i := 0 to |umount|
        invariant umount == old(umount) && rmtree == old(rmtree)
        invariant log == t0 + cmds[..i] && AllOk(cmds[..i], failing, |t0|)
      {
        ghost var ti := log;
        var c := Exec(["umount", umount[i]]);
        var ok := Execute(c);
        Step(cmds, t0, i, ti, log, ok);
        if !ok {
          return Err(c);
        }
      }
      Finished(cmds, t0, log);
      r := Ok(());
    }

    /** The second loop of the `finally` block: remove every registered
        tree in registration order, raising at the first failure. */
    method RemoveTrees() returns (r: Result<(), Command>)
      modifies this
      ensures umount == old(umount) && rmtree == old(rmtree)
      ensures Tried(RemoveTreeCommands(rmtree), old(log), log, r.Ok?)
      ensures r.Err? ==> |log| > 0 && r.error == log[|log| - 1]
    {
      ghost var t0, cmds := log, RemoveTreeCommands(rmtree);
      assert cmds[..0] == [] && t0 + [] == t0;
      for j := 0 to |rmtree|
        invariant umount == old(umount) && rmtree == old(rmtree)
        invariant log == t0 + cmds[..j] && AllOk(cmds[..j], failing, |t0|)
      {
        ghost var tj := log;
        var c := RemoveTree(rmtree[j]);
        var ok := Execute(c);
        Step(cmds, t0, j, tj, log, ok);
        if !ok {
          return Err(c);
        }
      }
      Finished(cmds, t0, log);
      r := Ok(());
    }

    /** The `finally` block of `BuildImage`: unmount every registered path,
        then remove every registered tree, in registration order, each `for`
        loop raising at its first failure. */
    method Cleanup() returns (r: Result<(), Command>)
      modifies this
      ensures umount == old(umount) && rmtree == old(rmtree)
      ensures Tried(CleanupCommands(umount, rmtree), old(log), log, r.Ok?)
      ensures r.Err? ==> |log| > 0 && r.error == log[|log| - 1]
    {
      ghost var t0 := log;
      var unmounted := UnmountAll();
      ghost var t1 := log;
      r := unmounted;
      if unmounted.Ok? {
        r := RemoveTrees();
      }
      TriedNext(UmountCommands(umount), RemoveTreeCommands(rmtree), t0, t1, log, unmounted.Ok?, r.Ok?);
    }

    /** `BuildImage`: `_BuildImage`, then the `finally` block, whose
        exception replaces the build's. */
    method BuildImage() returns (r: Result<(), Command>)
      modifies this
      ensures var o := BuildImageRun(cfg, BuildLayout(cfg, tempRoot), failing, |old(log)|, old(umount), old(rmtree));
        log == old(log) + o.attempted && umount == o.umount && rmtree == o.rmtree && r == o.result
    {
      ghost var t0, u0, rm0 := log, umount, rmtree;
      var built := BuildImageStages();
      r := if built then Ok(()) else Err(log[|log| - 1]);
      ghost var tb := log;
      var cleaned := Cleanup();
      if cleaned.Err? {
        r := cleaned;
      }
      Concluded(BuildCommands(cfg, BuildLayout(cfg, tempRoot)), tempRoot, t0, tb, log, u0, umount, rm0, rmtree,
                built, cleaned.Ok?, r);
    }
  }
}
