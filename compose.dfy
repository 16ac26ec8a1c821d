/** The Discord embed that `createEmbed` builds for a webhook payload, shared by the
    three notifier copies (src/Notifier.js, src/Notifier.mjs, src/notifier.mjs), which
    differ only in the text that opens the fenced run log and in the text that ends a
    release title (a `Variant`). The specification is `EmbedFor`; `CreateEmbed` builds
    the same value the way the source does, with loops over the commits and the file
    lists. */
module Compose {
  import opened Js
  import opened Payload
  import opened FileSets

  datatype Author = Author(name: string, iconUrl: Option<string>, url: Option<string>)

  datatype Field = Field(name: string, value: string, inline: bool)

  /** An embed; absent properties are `None`. */
  datatype Embed = Embed(
    title: string,
    url: Option<string>,
    color: int,
    timestamp: Option<string>,
    thumbnail: string,
    author: Option<Author>,
    description: Option<string>,
    fields: Option<seq<Field>>,
    footer: string)

  /** The message posted to the Discord webhook. */
  datatype Delivery = Delivery(url: string, embeds: seq<Embed>, username: string, avatarUrl: string)

  /** `encodeURIComponent` (percent-encoding of section 2.1 of RFC 3986) and
      `new Date().toISOString()`, both supplied by the caller. */
  datatype Oracles = Oracles(encodeUriComponent: string -> string, now: string)

  /** What differs between the copies: the text before the run log in a fenced block,
      and what follows the tag in a release title. */
  datatype Variant = Variant(errorFence: string, releaseSuffix: string)

  const Gold: int := 0xFFD700
  const Green: int := 0x00FF00
  const Blue: int := 0x3498db
  const Red: int := 0xFF0000
  const ClosingFence: string := "\n```"
  const GitHubThumbnail: string := "https://knit.purinton.us/assets/github.png"
  const TagThumbnail: string := "https://purinton.us/logos/purinton_64.png"
  const GenericText: string := "See details on GitHub for more information."
  const DescriptionCap: nat := 2000
  const Username: string := "Knit"
  const KnitAvatar: string := "https://knit.purinton.us/assets/knit.png"
  const OkPrefix: string := "\U{2705} "
  const ErrorPrefix: string := "\U{274C} Error: "

  // ---------------------------------------------------------------------------
  // Reading the payload

  /** `post.repository?.full_name || 'Unknown Repository'`. */
  function RepoName(post: Payload): (name: string)
    ensures name != ""
  {
    OrElse(if post.repository.Some? then post.repository.value.fullName else None, "Unknown Repository")
  }

  /** `post.repository?.html_url || ''`. */
  function RepoUrl(post: Payload): string {
    OrElse(if post.repository.Some? then post.repository.value.htmlUrl else None, "")
  }

  function PusherName(post: Payload): Option<string> {
    if post.pusher.Some? then post.pusher.value.name else None
  }

  /** The author block of the tag and commit embeds: the pusher's name or 'unknown', the
      sender's avatar or else the repository owner's, and the pusher's profile. */
  function AuthorOf(post: Payload): (a: Author)
    ensures a.name == OrElse(PusherName(post), "unknown")
    ensures post.sender.Some? && TruthyStr(post.sender.value.avatarUrl) ==> a.iconUrl == post.sender.value.avatarUrl
    ensures a.iconUrl.Some? ==> a.iconUrl.value != ""
    ensures !(post.sender.Some? && TruthyStr(post.sender.value.avatarUrl))
            && post.repository.Some? && post.repository.value.owner.Some?
            && TruthyStr(post.repository.value.owner.value.avatarUrl)
            ==> a.iconUrl == post.repository.value.owner.value.avatarUrl
    ensures a.url.Some? <==> TruthyStr(PusherName(post))
    ensures a.url.Some? ==> a.url.value == "https://github.com/" + PusherName(post).value
  {
    var icon :=
      if post.sender.Some? && TruthyStr(post.sender.value.avatarUrl) then post.sender.value.avatarUrl
      else if post.repository.Some? && post.repository.value.owner.Some?
              && TruthyStr(post.repository.value.owner.value.avatarUrl)
      then post.repository.value.owner.value.avatarUrl
      else None;
    var url := if TruthyStr(PusherName(post)) then Some("https://github.com/" + PusherName(post).value) else None;
    Author(OrElse(PusherName(post), "unknown"), icon, url)
  }

  // ---------------------------------------------------------------------------
  // The tag embed

  /** `post.ref.replace('refs/tags/', '')`. */
  function TagName(post: Payload): string
    requires IsTagPush(post)
  {
    ReplaceFirst(post.ref.value, TagPrefix, "")
  }

  function TagEmbed(v: Variant, post: Payload, o: Oracles): Embed
    requires IsTagPush(post)
  {
    var repoName := RepoName(post);
    var tag := TagName(post);
    var tagUrl :=
      if repoName != "" && tag != ""
      then "https://github.com/" + repoName + "/releases/tag/" + o.encodeUriComponent(tag)
      else RepoUrl(post);
    Embed(LastSegment(repoName) + " " + tag + v.releaseSuffix, Some(tagUrl), Gold, Some(o.now),
          TagThumbnail, Some(AuthorOf(post)), None, None, "GitHub Tag Push Event")
  }

  // ---------------------------------------------------------------------------
  // The commit embed

  datatype FileKind = AddedFiles | RemovedFiles | ModifiedFiles

  /** One of a commit's file lists, when it is an array. */
  function FilesOf(c: Commit, k: FileKind): seq<string> {
    match k
    case AddedFiles => c.added.GetOr([])
    case RemovedFiles => c.removed.GetOr([])
    case ModifiedFiles => c.modified.GetOr([])
  }

  /** All of one kind of file list of cs, commit after commit. */
  function Flatten(cs: seq<Commit>, k: FileKind): seq<string> {
    if cs == [] then [] else Flatten(cs[..|cs| - 1], k) + FilesOf(cs[|cs| - 1], k)
  }

  /** The commits whose file lists are read: `commits`, then `head_commit`. */
  function Sources(post: Payload): seq<Commit> {
    post.commits.GetOr([]) + (if post.headCommit.Some? then [post.headCommit.value] else [])
  }

  /** The three sets after the add loops, before the deletions. */
  function Gathered(post: Payload, k: FileKind): seq<string> {
    Distinct(Flatten(Sources(post), k))
  }

  /** `modifiedFiles` at the end. */
  function ModifiedList(post: Payload): seq<string> {
    Gathered(post, ModifiedFiles)
  }

  /** `addedFiles` at the end: the added files that are nowhere modified. */
  function NewList(post: Payload): seq<string> {
    Filter(Gathered(post, AddedFiles), ModifiedList(post))
  }

  /** `removedFiles` at the end: the removed files that are nowhere modified. */
  function DeletedList(post: Payload): seq<string> {
    Filter(Gathered(post, RemovedFiles), ModifiedList(post))
  }

  /** A field listing files, one per line, with the count in its name. */
  function FileField(heading: string, files: seq<string>): Field {
    Field(heading + " (" + NatToString(|files|) + ")", Join(files, "\n"), false)
  }

  /** The New, Deleted and Modified fields, each only when its list is non-empty. */
  function FileFields(added: seq<string>, removed: seq<string>, modified: seq<string>): (fs: seq<Field>)
    ensures |fs| == (if added != [] then 1 else 0) + (if removed != [] then 1 else 0) + (if modified != [] then 1 else 0)
    ensures added != [] ==> fs[0] == FileField("New", added)
    ensures added == [] && removed != [] ==> fs[0] == FileField("Deleted", removed)
    ensures added != [] && removed != [] ==> fs[1] == FileField("Deleted", removed)
    ensures modified != [] ==> fs[|fs| - 1] == FileField("Modified", modified)
    ensures forall k :: 0 <= k < |fs| ==> !fs[k].inline
  {
    (if added != [] then [FileField("New", added)] else [])
    + (if removed != [] then [FileField("Deleted", removed)] else [])
    + (if modified != [] then [FileField("Modified", modified)] else [])
  }

  /** `post.ref ? post.ref.replace(/^refs\/heads\//, '') : 'unknown'`. */
  function BranchName(post: Payload): string {
    if TruthyStr(post.ref) then StripPrefix(post.ref.value, BranchPrefix) else "unknown"
  }

  function Header(branch: string, count: nat): string {
    "Branch: **" + branch + "** - Commits: **" + NatToString(count) + "**\n"
  }

  /** One commit's line: the short id, and the message linked to the commit. */
  function CommitLine(c: Commit): string {
    "**" + (if c.id.Some? then Take(c.id.value, 7) else "") + "**: ["
    + OrElse(c.message, "") + "](" + OrElse(c.url, "") + ")\n"
  }

  function CommitLines(cs: seq<Commit>): string {
    if cs == [] then "" else CommitLines(cs[..|cs| - 1]) + CommitLine(cs[|cs| - 1])
  }

  /** The fenced run log, included only after a failed run with a non-empty log. */
  function ErrorLog(v: Variant, knitResults: string, hasError: bool): string {
    if hasError && knitResults != "" then v.errorFence + knitResults + ClosingFence else ""
  }

  /** The 2000-character cap: a longer text is cut to 1997 characters and '...'. */
  function Cap(d: string): (r: string)
    ensures |r| <= DescriptionCap
    ensures |d| <= DescriptionCap ==> r == d
    ensures |d| > DescriptionCap ==> |r| == DescriptionCap && r == d[..1997] + "..."
  {
    if |d| > DescriptionCap then Take(d, 1997) + "..." else d
  }

  /** The description before the cap and the trim. */
  function RawDescription(v: Variant, post: Payload, knitResults: string, hasError: bool): string
    requires post.commits.Some?
  {
    Header(BranchName(post), |post.commits.value|) + CommitLines(post.commits.value)
    + ErrorLog(v, knitResults, hasError)
  }

  /** `post.head_commit?.timestamp || new Date().toISOString()`. */
  function CommitTimestamp(post: Payload, o: Oracles): string {
    OrElse(if post.headCommit.Some? then post.headCommit.value.timestamp else None, o.now)
  }

  function CommitEmbed(v: Variant, post: Payload, knitResults: string, hasError: bool, o: Oracles): Embed
    requires post.commits.Some?
  {
    Embed("New Commits Pushed to " + RepoName(post), Some(RepoUrl(post)), Green,
          Some(CommitTimestamp(post, o)), GitHubThumbnail, Some(AuthorOf(post)),
          Some(Trim(Cap(RawDescription(v, post, knitResults, hasError)))),
          Some(FileFields(NewList(post), DeletedList(post), ModifiedList(post))),
          "GitHub Push Event")
  }

  // ---------------------------------------------------------------------------
  // The generic embed and the whole

  function GenericEmbed(v: Variant, post: Payload, knitResults: string, hasError: bool): Embed {
    Embed(RepoName(post) + " - " + OrElse(post.action, "Event"), None, Blue, None, GitHubThumbnail,
          None, Some(GenericText + ErrorLog(v, knitResults, hasError)), None, "GitHub Event")
  }

  /** `createEmbed(post, knitResults, hasError)`: a tag push, a push with a commit
      array, or any other event. */
  function EmbedFor(v: Variant, post: Payload, knitResults: string, hasError: bool, o: Oracles): Embed {
    if IsTagPush(post) then TagEmbed(v, post, o)
    else if post.commits.Some? then CommitEmbed(v, post, knitResults, hasError, o)
    else GenericEmbed(v, post, knitResults, hasError)
  }

  /** What `send` does to the embed before delivering it: an error turns it red and
      prefixes the title with '❌ Error: ', success prefixes it with '✅ '. */
  function Finish(e: Embed, hasError: bool): (r: Embed)
    ensures hasError ==> r.color == Red && r.title == ErrorPrefix + e.title
    ensures !hasError ==> r.color == e.color && r.title == OkPrefix + e.title
    ensures r.(title := e.title, color := e.color) == e
  {
    if hasError then e.(color := Red, title := ErrorPrefix + e.title) else e.(title := OkPrefix + e.title)
  }

  // ---------------------------------------------------------------------------
  // The loops of createEmbed

  /** The body of the commits loop for one commit: each of its file lists that is an
      array is added to the matching set. */
  method AddCommitFiles(c: Commit, added: seq<string>, removed: seq<string>, modified: seq<string>)
    returns (added': seq<string>, removed': seq<string>, modified': seq<string>)
    ensures added' == InsertAll(added, FilesOf(c, AddedFiles))
    ensures removed' == InsertAll(removed, FilesOf(c, RemovedFiles))
    ensures modified' == InsertAll(modified, FilesOf(c, ModifiedFiles))
  {
    added', removed', modified' := added, removed, modified;
    if c.added.Some? {
      added' := AddEach(added, c.added.value);
    }
    if c.removed.Some? {
      removed' := AddEach(removed, c.removed.value);
    }
    if c.modified.Some? {
      modified' := AddEach(modified, c.modified.value);
    }
  }

  /** Adding one more commit's list to the set of the earlier commits' lists. */
  lemma DistinctFlattenStep(cs: seq<Commit>, c: Commit, k: FileKind)
    ensures Distinct(Flatten(cs + [c], k)) == InsertAll(Distinct(Flatten(cs, k)), FilesOf(c, k))
  {
    assert (cs + [c])[..|cs|] == cs;
    InsertAllConcat([], Flatten(cs, k), FilesOf(c, k));
  }

  /** `modifiedFiles.forEach(f => { addedFiles.delete(f); removedFiles.delete(f); })`. */
  method DeleteModified(added: seq<string>, removed: seq<string>, modified: seq<string>)
    returns (added': seq<string>, removed': seq<string>)
    ensures added' == Filter(added, modified) && removed' == Filter(removed, modified)
  {
    added', removed' := added, removed;
    FilterNothing(added);
    FilterNothing(removed);
    var k := 0;
    while k < |modified|
      invariant 0 <= k <= |modified|
      invariant added' == Filter(added, modified[..k])
      invariant removed' == Filter(removed, modified[..k])
    {
      DeleteAfterFilter(added, modified[..k], modified[k]);
      DeleteAfterFilter(removed, modified[..k], modified[k]);
      assert modified[..k + 1] == modified[..k] + [modified[k]];
      added' := Delete(added', modified[k]);
      removed' := Delete(removed', modified[k]);
      k := k + 1;
    }
    assert modified[..k] == modified;
  }

  /** The add loops over `commits` and `head_commit`, then the deletion of every
      modified file from the added and removed sets. */
  method CollectFiles(post: Payload) returns (added: seq<string>, removed: seq<string>, modified: seq<string>)
    ensures added == NewList(post) && removed == DeletedList(post) && modified == ModifiedList(post)
  {
    added, removed, modified := [], [], [];
    var commits := post.commits.GetOr([]);
    if post.commits.Some? {
      var i := 0;
      while i < |commits|
        invariant 0 <= i <= |commits|
        invariant added == Distinct(Flatten(commits[..i], AddedFiles))
        invariant removed == Distinct(Flatten(commits[..i], RemovedFiles))
        invariant modified == Distinct(Flatten(commits[..i], ModifiedFiles))
      {
        assert commits[..i + 1] == commits[..i] + [commits[i]];
        DistinctFlattenStep(commits[..i], commits[i], AddedFiles);
        DistinctFlattenStep(commits[..i], commits[i], RemovedFiles);
        DistinctFlattenStep(commits[..i], commits[i], ModifiedFiles);
        added, removed, modified := AddCommitFiles(commits[i], added, removed, modified);
        i := i + 1;
      }
      assert commits[..i] == commits;
    }
    if post.headCommit.Some? {
      var h := post.headCommit.value;
      DistinctFlattenStep(commits, h, AddedFiles);
      DistinctFlattenStep(commits, h, RemovedFiles);
      DistinctFlattenStep(commits, h, ModifiedFiles);
      added, removed, modified := AddCommitFiles(h, added, removed, modified);
    } else {
      assert Sources(post) == commits;
    }
    added, removed := DeleteModified(added, removed, modified);
  }

  /** The description loop: the header, then one line per commit. */
  method DescribeCommits(header: string, commits: seq<Commit>) returns (description: string)
    ensures description == header + CommitLines(commits)
  {
    description := header;
    var i := 0;
    while i < |commits|
      invariant 0 <= i <= |commits|
      invariant description == header + CommitLines(commits[..i])
    {
      assert commits[..i + 1][..i] == commits[..i];
      description := description + CommitLine(commits[i]);
      i := i + 1;
    }
    assert commits[..i] == commits;
  }

  /** `createEmbed` as the source writes it. */
  method CreateEmbed(v: Variant, post: Payload, knitResults: string, hasError: bool, o: Oracles) returns (embed: Embed)
    ensures embed == EmbedFor(v, post, knitResults, hasError, o)
  {
    var repoName := RepoName(post);
    if IsTagPush(post) {
      var tag := ReplaceFirst(post.ref.value, TagPrefix, "");
      var tagUrl := if repoName != "" && tag != ""
                    then "https://github.com/" + repoName + "/releases/tag/" + o.encodeUriComponent(tag)
                    else RepoUrl(post);
      embed := Embed(LastSegment(repoName) + " " + tag + v.releaseSuffix, Some(tagUrl), Gold, Some(o.now),
                     TagThumbnail, Some(AuthorOf(post)), None, None, "GitHub Tag Push Event");
      assert tag == TagName(post);
      assert embed == TagEmbed(v, post, o);
      return;
    }
    if post.commits.Some? {
      var commits := post.commits.value;
      var added, removed, modified := CollectFiles(post);
      var description := DescribeCommits(Header(BranchName(post), |commits|), commits);
      if hasError && knitResults != "" {
        description := description + v.errorFence + knitResults + ClosingFence;
      }
      assert description == RawDescription(v, post, knitResults, hasError);
      if |description| > DescriptionCap {
        description := Take(description, 1997) + "...";
      }
      embed := Embed("New Commits Pushed to " + repoName, Some(RepoUrl(post)), Green,
                     Some(CommitTimestamp(post, o)), GitHubThumbnail, Some(AuthorOf(post)),
                     Some(Trim(description)), Some(FileFields(added, removed, modified)), "GitHub Push Event");
    } else {
      var description := GenericText;
      if hasError && knitResults != "" {
        description := description + v.errorFence + knitResults + ClosingFence;
      }
      assert description == GenericText + ErrorLog(v, knitResults, hasError);
      embed := Embed(repoName + " - " + OrElse(post.action, "Event"), None, Blue, None, GitHubThumbnail,
                     None, Some(description), None, "GitHub Event");
    }
  }

  // ---------------------------------------------------------------------------
  // Properties of the embed

  /** A tag push gives the release embed: the repository's short name, the tag (the
      ref without 'refs/tags/') and the copy's release text in the title; the release
      page of the encoded tag as url, or the repository url when the tag is empty; gold;
      and neither description nor fields. */
  lemma TagEmbedShape(v: Variant, post: Payload, knitResults: string, hasError: bool, o: Oracles)
    requires IsTagPush(post)
    ensures var e := EmbedFor(v, post, knitResults, hasError, o);
            var tag := post.ref.value[|TagPrefix|..];
            && e.title == LastSegment(RepoName(post)) + " " + tag + v.releaseSuffix
            && (tag != "" ==> e.url == Some("https://github.com/" + RepoName(post) + "/releases/tag/" + o.encodeUriComponent(tag)))
            && (tag == "" ==> e.url == Some(RepoUrl(post)))
            && e.color == Gold && e.timestamp == Some(o.now) && e.thumbnail == TagThumbnail
            && e.author == Some(AuthorOf(post))
            && e.description.None? && e.fields.None? && e.footer == "GitHub Tag Push Event"
  {
    ReplaceFirstOfPrefix(post.ref.value, TagPrefix);
  }

  /** The run log and the error flag never reach a tag embed. */
  lemma TagIgnoresRun(v: Variant, post: Payload, log1: string, err1: bool, log2: string, err2: bool, o: Oracles)
    requires IsTagPush(post)
    ensures EmbedFor(v, post, log1, err1, o) == EmbedFor(v, post, log2, err2, o)
  {
  }

  /** Without an error the log plays no part, and an empty log with an error gives the
      same embed as no error. */
  lemma LogOnlyOnError(v: Variant, post: Payload, log1: string, log2: string, o: Oracles)
    ensures EmbedFor(v, post, log1, false, o) == EmbedFor(v, post, log2, false, o)
    ensures EmbedFor(v, post, "", true, o) == EmbedFor(v, post, "", false, o)
  {
  }

  /** A file modified anywhere is never listed as new or deleted. */
  lemma ModifiedWins(post: Payload)
    ensures forall f :: f in ModifiedList(post) ==> f !in NewList(post) && f !in DeletedList(post)
  {
    FilterMembers(Gathered(post, AddedFiles), ModifiedList(post));
    FilterMembers(Gathered(post, RemovedFiles), ModifiedList(post));
  }

  /** Which files each list holds: a modified file of any commit, or an added (removed)
      file of any commit that no commit modifies. */
  lemma FileListMembers(post: Payload)
    ensures forall f :: f in ModifiedList(post) <==> f in Flatten(Sources(post), ModifiedFiles)
    ensures forall f :: f in NewList(post) <==>
              f in Flatten(Sources(post), AddedFiles) && f !in Flatten(Sources(post), ModifiedFiles)
    ensures forall f :: f in DeletedList(post) <==>
              f in Flatten(Sources(post), RemovedFiles) && f !in Flatten(Sources(post), ModifiedFiles)
  {
    var src := Sources(post);
    DistinctProperties(Flatten(src, AddedFiles), []);
    DistinctProperties(Flatten(src, RemovedFiles), []);
    DistinctProperties(Flatten(src, ModifiedFiles), []);
    FilterMembers(Gathered(post, AddedFiles), ModifiedList(post));
    FilterMembers(Gathered(post, RemovedFiles), ModifiedList(post));
  }

  /** Each list is duplicate-free. */
  lemma FileListsDuplicateFree(post: Payload)
    ensures NoDups(NewList(post)) && NoDups(DeletedList(post)) && NoDups(ModifiedList(post))
  {
    var src := Sources(post);
    DistinctProperties(Flatten(src, AddedFiles), []);
    DistinctProperties(Flatten(src, RemovedFiles), []);
    DistinctProperties(Flatten(src, ModifiedFiles), []);
    FilterNoDups(Gathered(post, AddedFiles), ModifiedList(post));
    FilterNoDups(Gathered(post, RemovedFiles), ModifiedList(post));
  }

  lemma {:induction false} FlattenConcat(a: seq<Commit>, b: seq<Commit>, k: FileKind)
    ensures Flatten(a + b, k) == Flatten(a, k) + Flatten(b, k)
    decreases |b|
  {
    if b == [] {
      assert a + b == a;
    } else {
      var n := |b| - 1;
      FlattenConcat(a, b[..n], k);
      assert (a + b)[..|a + b| - 1] == a + b[..n];
      assert (a + b)[|a + b| - 1] == b[n];
    }
  }

  /** First-seen order: the files of the first i commits come first in each list, in the
      order their own lists give them. */
  lemma FileListsInFirstSeenOrder(post: Payload, i: nat)
    requires i <= |Sources(post)|
    ensures Distinct(Flatten(Sources(post)[..i], ModifiedFiles)) <= ModifiedList(post)
    ensures Filter(Distinct(Flatten(Sources(post)[..i], AddedFiles)), ModifiedList(post)) <= NewList(post)
    ensures Filter(Distinct(Flatten(Sources(post)[..i], RemovedFiles)), ModifiedList(post)) <= DeletedList(post)
  {
    var src := Sources(post);
    assert src == src[..i] + src[i..];
    forall k: FileKind
      ensures Distinct(Flatten(src[..i], k)) <= Gathered(post, k)
      ensures Filter(Distinct(Flatten(src[..i], k)), ModifiedList(post)) <= Filter(Gathered(post, k), ModifiedList(post))
    {
      FlattenConcat(src[..i], src[i..], k);
      DistinctProperties(Flatten(src[..i], k), Flatten(src[i..], k));
      var d := Distinct(Flatten(src[..i], k));
      var g := Gathered(post, k);
      assert g == d + g[|d|..];
      FilterConcat(d, g[|d|..], ModifiedList(post));
    }
  }

  /** The fields of a commit embed are New, Deleted and Modified in that order, each only
      when its list is non-empty, with the list's length in the name and one file per line. */
  lemma CommitFields(v: Variant, post: Payload, knitResults: string, hasError: bool, o: Oracles)
    requires !IsTagPush(post) && post.commits.Some?
    ensures var e := EmbedFor(v, post, knitResults, hasError, o);
            var added, removed, modified := NewList(post), DeletedList(post), ModifiedList(post);
            && e.fields.Some?
            && |e.fields.value| == (if added != [] then 1 else 0) + (if removed != [] then 1 else 0) + (if modified != [] then 1 else 0)
            && (added != [] ==> e.fields.value[0] == FileField("New", added))
            && (added == [] && removed != [] ==> e.fields.value[0] == FileField("Deleted", removed))
            && (added != [] && removed != [] ==> e.fields.value[1] == FileField("Deleted", removed))
            && (modified != [] ==> e.fields.value[|e.fields.value| - 1] == FileField("Modified", modified))
  {
    var fs := FileFields(NewList(post), DeletedList(post), ModifiedList(post));
    assert EmbedFor(v, post, knitResults, hasError, o).fields == Some(fs);
  }

  /** One line per commit, in order: the lines of a concatenation are the lines of its
      parts. */
  lemma {:induction false} CommitLinesConcat(a: seq<Commit>, b: seq<Commit>)
    ensures CommitLines(a + b) == CommitLines(a) + CommitLines(b)
    decreases |b|
  {
    if b != [] {
      var n := |b| - 1;
      var ab := a + b;
      CommitLinesConcat(a, b[..n]);
      assert ab[..|ab| - 1] == a + b[..n];
      assert ab[|ab| - 1] == b[n];
    } else {
      assert a + b == a;
    }
  }

  /** The description of a commit embed never exceeds 2000 characters. */
  lemma DescriptionBounded(v: Variant, post: Payload, knitResults: string, hasError: bool, o: Oracles)
    requires !IsTagPush(post) && post.commits.Some?
    ensures var e := EmbedFor(v, post, knitResults, hasError, o);
            e.description.Some? && |e.description.value| <= DescriptionCap
  {
    TrimSpec(Cap(RawDescription(v, post, knitResults, hasError)));
  }

  lemma TrimStartKeeps(s: string)
    requires s != [] && !IsJsSpace(s[0])
    ensures TrimStart(s) == s
  {
  }

  /** A description over the cap is its first 1997 characters and '...', 2000 in all. */
  lemma LongDescriptionCut(v: Variant, post: Payload, knitResults: string, hasError: bool, o: Oracles)
    requires !IsTagPush(post) && post.commits.Some?
    requires |RawDescription(v, post, knitResults, hasError)| > DescriptionCap
    ensures var e := EmbedFor(v, post, knitResults, hasError, o);
            var raw := RawDescription(v, post, knitResults, hasError);
            e.description == Some(raw[..1997] + "...") && |e.description.value| == DescriptionCap
  {
    var raw := RawDescription(v, post, knitResults, hasError);
    var c := Cap(raw);
    assert raw[0] == 'B';
    assert c[0] == 'B' && c[|c| - 1] == '.';
    TrimStartKeeps(c);
  }

  /** After a failed run with a non-empty log, a description that fits is the whole
      raw description, which ends with the log in its fence. */
  lemma RunLogShownWhenItFits(v: Variant, post: Payload, knitResults: string, o: Oracles)
    requires !IsTagPush(post) && post.commits.Some? && knitResults != ""
    requires |RawDescription(v, post, knitResults, true)| <= DescriptionCap
    ensures var e := EmbedFor(v, post, knitResults, true, o);
            && e.description == Some(RawDescription(v, post, knitResults, true))
            && EndsWith(e.description.value, v.errorFence + knitResults + ClosingFence)
  {
    var raw := RawDescription(v, post, knitResults, true);
    var fenced := v.errorFence + knitResults + ClosingFence;
    var head := Header(BranchName(post), |post.commits.value|) + CommitLines(post.commits.value);
    assert raw == head + fenced;
    EndsWithConcat(head, fenced);
    assert EmbedFor(v, post, knitResults, true, o).description == Some(Trim(Cap(raw)));
    assert raw[0] == 'B' && raw[|raw| - 1] == '`';
    TrimUnpadded(raw);
  }

  /** A prefix that fits under the cap, starts with a non-space and has a non-space
      before its last character keeps all but that last character through the cap and
      the trim. */
  lemma {:induction false} PrefixSurvivesCapAndTrim(h: string, raw: string)
    requires h <= raw && 2 <= |h| <= 1997
    requires !IsJsSpace(h[0]) && !IsJsSpace(h[|h| - 2])
    ensures StartsWith(Trim(Cap(raw)), h[..|h| - 1])
  {
    var c := Cap(raw);
    assert h <= c;
    TrimStartKeeps(c);
    TrimEndSpec(c);
    var t := TrimEnd(c);
    assert !IsJsSpace(c[|h| - 2]);
    assert |h| - 1 <= |t|;
    assert h[..|h| - 1] == c[..|h| - 1];
  }

  /** The description starts with the header line 'Branch: **<branch>** - Commits:
      **<n>**' whenever the header fits under the cap. */
  lemma DescriptionStartsWithHeader(v: Variant, post: Payload, knitResults: string, hasError: bool, o: Oracles)
    requires !IsTagPush(post) && post.commits.Some?
    requires |Header(BranchName(post), |post.commits.value|)| <= 1997
    ensures var e := EmbedFor(v, post, knitResults, hasError, o);
            var header := Header(BranchName(post), |post.commits.value|);
            e.description.Some? && StartsWith(e.description.value, header[..|header| - 1])
  {
    var header := Header(BranchName(post), |post.commits.value|);
    var raw := RawDescription(v, post, knitResults, hasError);
    assert header <= raw;
    assert header[0] == 'B' && header[|header| - 2] == '*';
    PrefixSurvivesCapAndTrim(header, raw);
  }

  /** Any other event: '<repository> - <action>' in blue with the fixed text, followed by
      the fenced log only after a failed run with a non-empty log. */
  lemma GenericEmbedShape(v: Variant, post: Payload, knitResults: string, hasError: bool, o: Oracles)
    requires !IsTagPush(post) && post.commits.None?
    ensures var e := EmbedFor(v, post, knitResults, hasError, o);
            && e.title == RepoName(post) + " - " + OrElse(post.action, "Event")
            && e.color == Blue && e.url.None? && e.author.None? && e.fields.None?
            && e.description == Some(GenericText + (if hasError && knitResults != ""
                                                    then v.errorFence + knitResults + ClosingFence
                                                    else ""))
  {
  }
}
