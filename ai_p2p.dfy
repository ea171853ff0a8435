/**
 * The P2P file-sharing endpoints of the AI router: an in-memory registry of
 * uploaded files (`shared_files_db`) and a table of per-file statistics
 * (`download_stats`), both Python dictionaries updated in place.
 *
 * A dictionary is a `map` together with its keys in insertion order, since
 * the order is what the listing and the JSON responses expose. Upload dates
 * are integer clock ticks (the ISO-8601 strings of the source order like the
 * times they denote); generated ids, file paths, the clock and whether a file
 * is still on disk are parameters.
 */
module AiP2P {
  import opened Basics
  import opened Text

  const MiB := 1024 * 1024
  const MaxUploadSize := 100 * MiB

  const AllowedTypes: set<String> := {
    "audio/mpeg", "audio/mp3", "audio/wav", "audio/ogg",
    "video/mp4", "video/avi", "video/mkv",
    "application/pdf", "text/plain", "application/msword",
    "application/vnd.openxmlformats-officedocument.wordprocessingml.document"
  }

  /** One registry entry. `peers` is the key the listing adds to the entry itself. */
  datatype FileInfo = FileInfo(
    id: String,
    name: String,
    originalName: String,
    size: nat,
    contentType: String,
    category: String,
    description: String,
    uploadDate: int,
    downloads: int,
    isAudio: bool,
    filePath: String,
    peers: Option<int>)

  datatype Stats = Stats(downloads: int, peers: int)

  /** A JSON body, or the `HTTPException` the endpoint ends with. */
  datatype Response<T> = Ok(value: T) | HttpError(status: int, detail: String)

  // ---------------------------------------------------------------------------
  // Upload rules
  // ---------------------------------------------------------------------------

  /** How Python's f-string renders the optional content type. */
  function TypeText(contentType: Option<String>): String
  {
    if contentType.Some? then contentType.value else "None"
  }

  /**
   * The detail of the 400 an upload is refused with, if any: first the type,
   * then the size.
   */
  function UploadRefusal(contentType: Option<String>, size: nat): (r: Option<String>)
    ensures r.None? <==> contentType.Some? && contentType.value in AllowedTypes && size <= MaxUploadSize
    ensures (contentType.None? || contentType.value !in AllowedTypes) ==>
      r == Some("File type " + TypeText(contentType) + " not allowed")
  {
    if contentType.None? || contentType.value !in AllowedTypes then
      Some("File type " + TypeText(contentType) + " not allowed")
    else if size > MaxUploadSize then
      Some("File too large. Maximum size: 100MB")
    else None
  }

  /** `str(e)` of an `HTTPException`: its status, a colon and its detail. */
  function ExceptionText(status: nat, detail: String): String
  {
    NatToString(status) + ": " + detail
  }

  // ---------------------------------------------------------------------------
  // Listing: filters, statistics and the newest-first order
  // ---------------------------------------------------------------------------

  /** The category and search filters of `list_shared_files` for one entry. */
  predicate Matches(f: FileInfo, category: Option<String>, search: Option<String>)
  {
    (category.None? || category.value == "" || category.value == "all" || f.category == category.value)
    && (search.None? || search.value == ""
        || Contains(Lower(f.name), Lower(search.value))
        || Contains(Lower(f.description), Lower(search.value)))
  }

  /** The statistics a file gets the first time it is listed: one peer per whole MiB, and at least one. */
  function FirstStats(f: FileInfo): (s: Stats)
    ensures s.downloads == f.downloads
    ensures s.peers >= 1 && (f.size >= MiB ==> s.peers * MiB <= f.size < (s.peers + 1) * MiB)
  {
    Stats(f.downloads, Max(1, f.size / MiB))
  }

  /** The entry as the listing leaves it: downloads and peers copied from its statistics. */
  function Annotated(f: FileInfo, s: Stats): FileInfo
  {
    f.(downloads := s.downloads, peers := Some(s.peers))
  }

  /** Newest first, and files with the same date keep their registry order (Python's sort is stable). */
  function SortNewestFirst(fs: seq<FileInfo>): seq<FileInfo>
    decreases |fs|
  {
    if |fs| == 0 then [] else InsertByDate(fs[0], SortNewestFirst(fs[1..]))
  }

  /** Put f in front of the first entry that is not newer than it. */
  function InsertByDate(f: FileInfo, sorted: seq<FileInfo>): (r: seq<FileInfo>)
    ensures |r| == |sorted| + 1
    ensures r[0] == f || (|sorted| > 0 && r[0] == sorted[0])
    decreases |sorted|
  {
    if |sorted| == 0 || sorted[0].uploadDate <= f.uploadDate then [f] + sorted
    else [sorted[0]] + InsertByDate(f, sorted[1..])
  }

  predicate NewestFirst(fs: seq<FileInfo>)
  {
    forall i, j :: 0 <= i < j < |fs| ==> fs[i].uploadDate >= fs[j].uploadDate
  }

  function DatedAt(d: int): FileInfo -> bool
  {
    (f: FileInfo) => f.uploadDate == d
  }

  lemma {:induction false} InsertByDateSorted(f: FileInfo, sorted: seq<FileInfo>)
    requires NewestFirst(sorted)
    ensures NewestFirst(InsertByDate(f, sorted))
    decreases |sorted|
  {
    if |sorted| > 0 && sorted[0].uploadDate > f.uploadDate {
      var tail := sorted[1..];
      InsertByDateSorted(f, tail);
      var x := InsertByDate(f, tail);
      assert x[0].uploadDate <= sorted[0].uploadDate;
      var r := [sorted[0]] + x;
      forall i, j | 0 <= i < j < |r| ensures r[i].uploadDate >= r[j].uploadDate {
        if i > 0 {
          assert r[i] == x[i - 1] && r[j] == x[j - 1];
        } else if j > 1 {
          assert r[j] == x[j - 1];
        }
      }
    } else if |sorted| > 0 {
      var r := [f] + sorted;
      forall i, j | 0 <= i < j < |r| ensures r[i].uploadDate >= r[j].uploadDate {
        if i > 0 {
          assert r[i] == sorted[i - 1] && r[j] == sorted[j - 1];
        } else {
          assert r[j] == sorted[j - 1];
        }
      }
    }
  }

  lemma {:induction false} InsertByDatePermutes(f: FileInfo, sorted: seq<FileInfo>)
    ensures multiset(InsertByDate(f, sorted)) == multiset([f] + sorted)
    decreases |sorted|
  {
    if |sorted| > 0 && sorted[0].uploadDate > f.uploadDate {
      var tail := sorted[1..];
      InsertByDatePermutes(f, tail);
      assert sorted == [sorted[0]] + tail;
    }
  }

  /** Inserting keeps the relative order of the entries of each date. */
  lemma {:induction false} InsertByDateStable(f: FileInfo, sorted: seq<FileInfo>, d: int)
    requires NewestFirst(sorted)
    ensures Filter(InsertByDate(f, sorted), DatedAt(d)) == Filter([f] + sorted, DatedAt(d))
    decreases |sorted|
  {
    if |sorted| > 0 && sorted[0].uploadDate > f.uploadDate {
      var tail := sorted[1..];
      assert NewestFirst(tail);
      InsertByDateStable(f, tail, d);
      var r := InsertByDate(f, sorted);
      assert r == [sorted[0]] + InsertByDate(f, tail);
      assert r[1..] == InsertByDate(f, tail);
      assert ([f] + sorted)[1..] == sorted;
      assert ([f] + tail)[1..] == tail;
      assert sorted[1..] == tail;
    }
  }

  /**
   * The listing order: entries newest first, the same entries as before, and
   * for every date the entries of that date in their original order.
   */
  lemma {:induction false} SortNewestFirstCorrect(fs: seq<FileInfo>)
    ensures NewestFirst(SortNewestFirst(fs))
    ensures multiset(SortNewestFirst(fs)) == multiset(fs)
    ensures forall d :: Filter(SortNewestFirst(fs), DatedAt(d)) == Filter(fs, DatedAt(d))
    decreases |fs|
  {
    if |fs| > 0 {
      var tail := fs[1..];
      SortNewestFirstCorrect(tail);
      InsertByDateSorted(fs[0], SortNewestFirst(tail));
      InsertByDatePermutes(fs[0], SortNewestFirst(tail));
      assert fs == [fs[0]] + tail;
      forall d ensures Filter(SortNewestFirst(fs), DatedAt(d)) == Filter(fs, DatedAt(d)) {
        InsertByDateStable(fs[0], SortNewestFirst(tail), d);
        FilterAppend([fs[0]], SortNewestFirst(tail), DatedAt(d));
        FilterAppend([fs[0]], tail, DatedAt(d));
      }
    }
  }

  // ---------------------------------------------------------------------------
  // Statistics
  // ---------------------------------------------------------------------------

  /** One entry of the `categories` object of the statistics. */
  datatype CategoryTotal = CategoryTotal(category: String, files: nat, size: int)

  function SameCategory(category: String): CategoryTotal -> bool
  {
    (t: CategoryTotal) => t.category == category
  }

  /** One step of the statistics loop: count f under its category, adding the category the first time it is seen. */
  function AddToCategory(ts: seq<CategoryTotal>, f: FileInfo): (r: seq<CategoryTotal>)
  {
    match FindIndex(ts, SameCategory(f.category))
    case None => ts + [CategoryTotal(f.category, 1, f.size)]
    case Some(k) => ts[k := ts[k].(files := ts[k].files + 1, size := ts[k].size + f.size)]
  }

  /** The `categories` object: the categories in order of first appearance, with file counts and size sums. */
  function CategoryTotals(fs: seq<FileInfo>): seq<CategoryTotal>
    decreases |fs|
  {
    if |fs| == 0 then [] else AddToCategory(CategoryTotals(fs[..|fs| - 1]), fs[|fs| - 1])
  }

  function CountSum(ts: seq<CategoryTotal>): nat
    decreases |ts|
  {
    if |ts| == 0 then 0 else CountSum(ts[..|ts| - 1]) + ts[|ts| - 1].files
  }

  function SizeSum(ts: seq<CategoryTotal>): int
    decreases |ts|
  {
    if |ts| == 0 then 0 else SizeSum(ts[..|ts| - 1]) + ts[|ts| - 1].size
  }

  function TotalSize(fs: seq<FileInfo>): int
    decreases |fs|
  {
    if |fs| == 0 then 0 else TotalSize(fs[..|fs| - 1]) + fs[|fs| - 1].size
  }

  function CategoryNames(ts: seq<CategoryTotal>): (names: seq<String>)
    ensures |names| == |ts| && forall i :: 0 <= i < |ts| ==> names[i] == ts[i].category
  {
    seq(|ts|, i requires 0 <= i < |ts| => ts[i].category)
  }

  /** Changing one entry changes the sums by the difference. */
  lemma {:induction false} SumsUpdate(ts: seq<CategoryTotal>, k: nat, t: CategoryTotal)
    requires k < |ts|
    ensures CountSum(ts[k := t]) == CountSum(ts) - ts[k].files + t.files
    ensures SizeSum(ts[k := t]) == SizeSum(ts) - ts[k].size + t.size
    decreases |ts|
  {
    var u := ts[k := t];
    if k < |ts| - 1 {
      assert u[..|u| - 1] == ts[..|ts| - 1][k := t];
      SumsUpdate(ts[..|ts| - 1], k, t);
    } else {
      assert u[..|u| - 1] == ts[..|ts| - 1];
    }
  }

  /** Counting one more file keeps the category names distinct and adds one file and its size to the sums. */
  lemma AddToCategoryKeepsSums(ts: seq<CategoryTotal>, f: FileInfo)
    requires Distinct(CategoryNames(ts))
    ensures var r := AddToCategory(ts, f);
      Distinct(CategoryNames(r))
      && CountSum(r) == CountSum(ts) + 1 && SizeSum(r) == SizeSum(ts) + f.size
      && forall c :: c in CategoryNames(r) <==> c in CategoryNames(ts) || c == f.category
  {
    var r := AddToCategory(ts, f);
    match FindIndex(ts, SameCategory(f.category))
    case None =>
      assert r[..|r| - 1] == ts;
      assert CategoryNames(r) == CategoryNames(ts) + [f.category];
      assert f.category !in CategoryNames(ts);
    case Some(k) =>
      SumsUpdate(ts, k, r[k]);
      assert CategoryNames(r) == CategoryNames(ts);
  }

  /** The categories the files are filed under. */
  function FileCategories(fs: seq<FileInfo>): set<String>
    decreases |fs|
  {
    if |fs| == 0 then {} else FileCategories(fs[..|fs| - 1]) + {fs[|fs| - 1].category}
  }

  /** The per-category counts and sizes add up to the number of files and their total size, each category once. */
  lemma {:induction false} CategoryTotalsAddUp(fs: seq<FileInfo>)
    ensures Distinct(CategoryNames(CategoryTotals(fs)))
    ensures CountSum(CategoryTotals(fs)) == |fs|
    ensures SizeSum(CategoryTotals(fs)) == TotalSize(fs)
    decreases |fs|
  {
    if |fs| > 0 {
      CategoryTotalsAddUp(fs[..|fs| - 1]);
      AddToCategoryKeepsSums(CategoryTotals(fs[..|fs| - 1]), fs[|fs| - 1]);
    }
  }

  /** The categories listed are exactly those of the files. */
  lemma {:induction false} CategoryTotalsNames(fs: seq<FileInfo>)
    ensures forall c :: c in CategoryNames(CategoryTotals(fs)) <==> c in FileCategories(fs)
    decreases |fs|
  {
    if |fs| > 0 {
      var prefix := fs[..|fs| - 1];
      CategoryTotalsNames(prefix);
      CategoryTotalsAddUp(prefix);
      AddToCategoryKeepsSums(CategoryTotals(prefix), fs[|fs| - 1]);
    }
  }

  /** The downloads recorded in the statistics, summed over the given keys. */
  function TotalDownloads(stats: map<String, Stats>, keys: seq<String>): int
    requires forall k :: k in keys ==> k in stats
    decreases |keys|
  {
    if |keys| == 0 then 0 else stats[keys[0]].downloads + TotalDownloads(stats, keys[1..])
  }

  /** Changing the statistics of one key changes the total by the difference in its downloads. */
  lemma {:induction false} TotalDownloadsUpdate(stats: map<String, Stats>, keys: seq<String>, id: String, s: Stats)
    requires forall k :: k in keys ==> k in stats
    requires Distinct(keys)
    ensures id in keys ==>
      TotalDownloads(stats[id := s], keys) == TotalDownloads(stats, keys) - stats[id].downloads + s.downloads
    ensures id !in keys ==> TotalDownloads(stats[id := s], keys) == TotalDownloads(stats, keys)
    decreases |keys|
  {
    if |keys| > 0 {
      var tail := keys[1..];
      DistinctTail(keys);
      TotalDownloadsUpdate(stats, tail, id, s);
    }
  }

  /** Adding a key at the end adds its downloads. */
  lemma {:induction false} TotalDownloadsAppend(stats: map<String, Stats>, keys: seq<String>, id: String)
    requires forall k :: k in keys ==> k in stats
    requires id in stats
    ensures TotalDownloads(stats, keys + [id]) == TotalDownloads(stats, keys) + stats[id].downloads
    decreases |keys|
  {
    if |keys| > 0 {
      assert (keys + [id])[1..] == keys[1..] + [id];
      TotalDownloadsAppend(stats, keys[1..], id);
    } else {
      assert keys + [id] == [id];
    }
  }

  // ---------------------------------------------------------------------------
  // The registry and its statistics table
  // ---------------------------------------------------------------------------

  /** The entries of a dictionary, in the order of the given keys. */
  function Entries(files: map<String, FileInfo>, keys: seq<String>): (r: seq<FileInfo>)
    requires forall id :: id in keys ==> id in files
    ensures |r| == |keys| && forall i :: 0 <= i < |keys| ==> r[i] == files[keys[i]]
  {
    seq(|keys|, i requires 0 <= i < |keys| => files[keys[i]])
  }

  function Listed(files: map<String, FileInfo>, category: Option<String>, search: Option<String>): String -> bool
  {
    (id: String) => id in files && Matches(files[id], category, search)
  }

  /** The ids the listing shows, in registry order. */
  function ListedIds(files: map<String, FileInfo>, order: seq<String>, category: Option<String>, search: Option<String>): seq<String>
  {
    Filter(order, Listed(files, category, search))
  }

  /** A file is listed exactly when it is in the registry and passes both filters, and no file is listed twice. */
  lemma ListedIdsExactly(files: map<String, FileInfo>, order: seq<String>, category: Option<String>, search: Option<String>)
    requires Distinct(order) && forall id :: id in files <==> id in order
    ensures Distinct(ListedIds(files, order, category, search))
    ensures forall id :: id in ListedIds(files, order, category, search) <==> id in files && Matches(files[id], category, search)
  {
    FilterDistinct(order, Listed(files, category, search));
    FilterMembers(order, Listed(files, category, search));
  }

  function Unrecorded(stats: map<String, Stats>): String -> bool
  {
    (id: String) => id !in stats
  }

  function Other(id: String): String -> bool
  {
    (k: String) => k != id
  }

  /** The statistics table after one more download of id: created with one peer and no download if missing, then counted. */
  function Counted(stats: map<String, Stats>, keys: seq<String>, id: String): (map<String, Stats>, seq<String>)
  {
    var s := if id in stats then stats[id] else Stats(0, 1);
    (stats[id := s.(downloads := s.downloads + 1)], if id in stats then keys else keys + [id])
  }

  /** A download adds exactly one to the total, leaves every other file's statistics and every peer count as they were. */
  lemma DownloadCountsOne(stats: map<String, Stats>, keys: seq<String>, id: String)
    requires Distinct(keys) && forall k :: k in stats <==> k in keys
    ensures var (stats', keys') := Counted(stats, keys, id);
      Distinct(keys') && forall k :: k in stats' <==> k in keys'
    ensures forall k :: k in Counted(stats, keys, id).0 <==> k in stats || k == id
    ensures var (stats', keys') := Counted(stats, keys, id);
      TotalDownloads(stats', keys') == TotalDownloads(stats, keys) + 1
    ensures var stats' := Counted(stats, keys, id).0;
      id in stats' && stats'[id].peers == (if id in stats then stats[id].peers else 1)
      && forall k :: k in stats && k != id ==> k in stats' && stats'[k] == stats[k]
  {
    var (stats', keys') := Counted(stats, keys, id);
    if id in stats {
      TotalDownloadsUpdate(stats, keys, id, stats'[id]);
    } else {
      TotalDownloadsUpdate(stats, keys, id, stats'[id]);
      TotalDownloadsAppend(stats', keys, id);
    }
  }

  /** Deleting a file that was just uploaded under a fresh id gives back the registry as it was. */
  lemma DeleteUndoesUpload(files: map<String, FileInfo>, order: seq<String>, info: FileInfo)
    requires forall id :: id in files <==> id in order
    requires info.id !in files
    ensures files[info.id := info] - {info.id} == files
    ensures Filter(order + [info.id], Other(info.id)) == order
  {
    FilterAppend(order, [info.id], Other(info.id));
    FilterKeepsAll(order, Other(info.id));
  }

  /** What `upload_file` answers on success. */
  datatype Receipt = Receipt(fileId: String, filename: String, size: nat, contentType: String, isAudio: bool, message: String)

  /** What `list_shared_files` answers: the listed entries, their number and every category in the registry. */
  datatype Listing = Listing(files: seq<FileInfo>, total: nat, categories: set<String>)

  /** The file response of `download_file`. */
  datatype Delivery = Delivery(path: String, filename: String, mediaType: String)

  /** What `get_p2p_stats` answers. */
  datatype Report = Report(onlinePeers: int, totalFiles: nat, totalDownloads: int, categories: seq<CategoryTotal>, networkStatus: String)

  /** The entry `upload_file` stores for an accepted upload. */
  function NewEntry(fileId: String, filename: String, size: nat, contentType: String, category: String,
                    description: String, filePath: String, now: int): (f: FileInfo)
    ensures f.id == fileId && f.downloads == 0 && f.peers.None?
    ensures f.isAudio <==> StartsWith(contentType, "audio/")
  {
    FileInfo(fileId, filename, filename, size, contentType, category, description, now, 0,
             StartsWith(contentType, "audio/"), filePath, None)
  }

  /**
   * `list_shared_files` on the two tables: the filtered entries, annotated
   * from their statistics and sorted newest first, and the tables as the
   * loop leaves them.
   */
  method ListShared(t: Tables, order: seq<String>, category: Option<String>, search: Option<String>)
    returns (t': Tables, r: Listing)
    requires Consistent(t.files, order, t.stats, t.statsOrder)
    ensures var ids := ListedIds(t.files, order, category, search);
      t' == AnnotateAll(t, ids)
      && r == Listing(SortNewestFirst(Entries(t'.files, ids)), |ids|, set id | id in t'.files :: t'.files[id].category)
    ensures Consistent(t'.files, order, t'.stats, t'.statsOrder)
    ensures NewestFirst(r.files)
    ensures forall f :: f in r.files ==> Matches(f, category, search)
  {
    var ids := ListedIds(t.files, order, category, search);
    ListedIdsExactly(t.files, order, category, search);
    t' := AnnotateListed(t, ids);
    AnnotateAllConsistent(t, order, ids);
    var entries := Entries(t'.files, ids);
    r := Listing(SortNewestFirst(entries), |ids|, set id | id in t'.files :: t'.files[id].category);
    SortNewestFirstCorrect(entries);
    AnnotatedStillMatch(t, ids, category, search);
    SortedStillMatch(entries, category, search);
  }

  /** Keys in insertion order without repeats, ids matching keys, and statistics only for registered files. */
  ghost predicate Consistent(files: map<String, FileInfo>, order: seq<String>, stats: map<String, Stats>, statsOrder: seq<String>)
  {
    Distinct(order) && (forall id :: id in files <==> id in order)
    && (forall id :: id in files ==> files[id].id == id)
    && Distinct(statsOrder) && (forall id :: id in stats <==> id in statsOrder)
    && (forall id :: id in stats ==> id in files)
  }

  /** The registry and the statistics table, as the listing loop sees them. */
  datatype Tables = Tables(files: map<String, FileInfo>, stats: map<String, Stats>, statsOrder: seq<String>)

  /**
   * One iteration of the listing loop: a file seen for the first time gets
   * its statistics, and the entry takes its downloads and peers from them.
   */
  function AnnotateOne(t: Tables, id: String): (r: Tables)
    requires id in t.files
    ensures forall k :: k in r.files <==> k in t.files
    ensures forall k :: k in r.stats <==> k in t.stats || k == id
  {
    var stats := if id in t.stats then t.stats else t.stats[id := FirstStats(t.files[id])];
    var statsOrder := if id in t.stats then t.statsOrder else t.statsOrder + [id];
    Tables(t.files[id := Annotated(t.files[id], stats[id])], stats, statsOrder)
  }

  /** The whole listing loop over ids, in order. */
  function AnnotateAll(t: Tables, ids: seq<String>): (r: Tables)
    requires forall id :: id in ids ==> id in t.files
    ensures forall k :: k in r.files <==> k in t.files
    ensures forall k :: k in r.stats <==> k in t.stats || k in ids
    decreases |ids|
  {
    if |ids| == 0 then t else AnnotateOne(AnnotateAll(t, ids[..|ids| - 1]), ids[|ids| - 1])
  }

  /** The last id of a list without repeats does not occur before it. */
  lemma LastIsNew(ids: seq<String>)
    requires Distinct(ids) && |ids| > 0
    ensures Distinct(ids[..|ids| - 1]) && ids[|ids| - 1] !in ids[..|ids| - 1]
    ensures ids == ids[..|ids| - 1] + [ids[|ids| - 1]]
  {
  }

  /** Statistics already there are kept; a listed file seen for the first time gets its first statistics. */
  lemma {:induction false} AnnotateAllStats(t: Tables, ids: seq<String>)
    requires Distinct(ids) && forall id :: id in ids ==> id in t.files
    ensures var r := AnnotateAll(t, ids);
      forall id :: id in r.stats ==> r.stats[id] == if id in t.stats then t.stats[id] else FirstStats(t.files[id])
    decreases |ids|
  {
    if |ids| > 0 {
      var prefix, id := ids[..|ids| - 1], ids[|ids| - 1];
      LastIsNew(ids);
      AnnotateAllStats(t, prefix);
      AnnotateAllFiles(t, prefix);
      var before := AnnotateAll(t, prefix);
      assert before.files[id] == t.files[id];
    }
  }

  /** Every listed entry carries the downloads and peers of its statistics; the other entries are untouched. */
  lemma {:induction false} AnnotateAllFiles(t: Tables, ids: seq<String>)
    requires Distinct(ids) && forall id :: id in ids ==> id in t.files
    ensures var r := AnnotateAll(t, ids);
      forall id :: id in r.files ==> r.files[id] == if id in ids then Annotated(t.files[id], r.stats[id]) else t.files[id]
    decreases |ids|
  {
    if |ids| > 0 {
      LastIsNew(ids);
      AnnotateAllFiles(t, ids[..|ids| - 1]);
    }
  }

  /** The statistics of the files seen for the first time are appended in listing order. */
  lemma {:induction false} AnnotateAllOrder(t: Tables, ids: seq<String>)
    requires Distinct(ids) && forall id :: id in ids ==> id in t.files
    ensures AnnotateAll(t, ids).statsOrder == t.statsOrder + Filter(ids, Unrecorded(t.stats))
    decreases |ids|
  {
    if |ids| > 0 {
      var prefix, id := ids[..|ids| - 1], ids[|ids| - 1];
      LastIsNew(ids);
      AnnotateAllOrder(t, prefix);
      FilterAppend(prefix, [id], Unrecorded(t.stats));
    }
  }

  /** The loop changes only downloads and peers, so the entries it lists still pass the filters. */
  lemma AnnotatedStillMatch(t: Tables, ids: seq<String>, category: Option<String>, search: Option<String>)
    requires Distinct(ids) && forall id :: id in ids ==> id in t.files && Matches(t.files[id], category, search)
    ensures forall f :: f in Entries(AnnotateAll(t, ids).files, ids) ==> Matches(f, category, search)
  {
    AnnotateAllFiles(t, ids);
    var entries := Entries(AnnotateAll(t, ids).files, ids);
    forall f | f in entries ensures Matches(f, category, search) {
      var i :| 0 <= i < |entries| && entries[i] == f;
      assert ids[i] in ids;
    }
  }

  /** Sorting neither adds nor drops entries, so a property of every entry survives it. */
  lemma SortedStillMatch(fs: seq<FileInfo>, category: Option<String>, search: Option<String>)
    requires forall f :: f in fs ==> Matches(f, category, search)
    ensures forall f :: f in SortNewestFirst(fs) ==> Matches(f, category, search)
  {
    SortNewestFirstCorrect(fs);
    forall f | f in SortNewestFirst(fs) ensures Matches(f, category, search) {
      assert f in multiset(SortNewestFirst(fs));
    }
  }

  /** The listing loop keeps the tables consistent. */
  lemma AnnotateAllConsistent(t: Tables, order: seq<String>, ids: seq<String>)
    requires Consistent(t.files, order, t.stats, t.statsOrder)
    requires Distinct(ids) && forall id :: id in ids ==> id in t.files
    ensures var r := AnnotateAll(t, ids); Consistent(r.files, order, r.stats, r.statsOrder)
  {
    AnnotateAllFiles(t, ids);
    AnnotateAllOrder(t, ids);
    var added := Filter(ids, Unrecorded(t.stats));
    FilterDistinct(ids, Unrecorded(t.stats));
    FilterMembers(ids, Unrecorded(t.stats));
    DistinctConcat(t.statsOrder, added);
  }

  /** The loop of `list_shared_files` over the listed ids. */
  method AnnotateListed(t: Tables, ids: seq<String>) returns (r: Tables)
    requires forall id :: id in ids ==> id in t.files
    ensures r == AnnotateAll(t, ids)
  {
    r := t;
    var i := 0;
    while i < |ids|
      invariant 0 <= i <= |ids|
      invariant r == AnnotateAll(t, ids[..i])
    {
      var id := ids[i];
      assert ids[..i + 1][..i] == ids[..i];
      var stats := r.stats;
      var statsOrder := r.statsOrder;
      if id !in stats {
        stats := stats[id := FirstStats(r.files[id])];
        statsOrder := statsOrder + [id];
      }
      r := Tables(r.files[id := Annotated(r.files[id], stats[id])], stats, statsOrder);
      i := i + 1;
    }
    assert ids[..i] == ids;
  }

  /**
   * `shared_files_db` (files with their insertion order) and `download_stats`
   * (stats with theirs). Every statistics entry belongs to a registered file.
   */
  class Registry {
    var files: map<String, FileInfo>
    var order: seq<String>
    var stats: map<String, Stats>
    var statsOrder: seq<String>

    ghost predicate Valid()
      reads this
    {
      Consistent(files, order, stats, statsOrder)
    }

    constructor()
      ensures Valid()
      ensures files == map[] && order == [] && stats == map[] && statsOrder == []
    {
      files, order, stats, statsOrder := map[], [], map[], [];
    }

    /**
     * `upload_file`: a refused type or size raises a 400 inside the handler's
     * `try`, which the handler turns into a 500 carrying the 400's text.
     */
    method Upload(contentType: Option<String>, filename: String, size: nat, category: String, description: String,
                  fileId: String, filePath: String, now: int) returns (r: Response<Receipt>)
      requires Valid()
      modifies this
      ensures Valid()
      ensures UploadRefusal(contentType, size).Some? ==>
        r == HttpError(500, "Upload failed: " + ExceptionText(400, UploadRefusal(contentType, size).value))
        && unchanged(this)
      ensures UploadRefusal(contentType, size).None? ==>
        var info := NewEntry(fileId, filename, size, contentType.value, category, description, filePath, now);
        r == Ok(Receipt(fileId, filename, size, contentType.value, info.isAudio, "File uploaded successfully"))
        && files == old(files)[fileId := info]
        && order == (if fileId in old(files) then old(order) else old(order) + [fileId])
        && stats == old(stats) && statsOrder == old(statsOrder)
    {
      var refusal := UploadRefusal(contentType, size);
      if refusal.Some? {
        return HttpError(500, "Upload failed: " + ExceptionText(400, refusal.value));
      }
      var info := NewEntry(fileId, filename, size, contentType.value, category, description, filePath, now);
      if fileId !in files {
        order := order + [fileId];
      }
      files := files[fileId := info];
      r := Ok(Receipt(fileId, filename, size, contentType.value, info.isAudio, "File uploaded successfully"));
    }

    /**
     * `list_shared_files`. The loop works on the registry's own entries (the
     * list holds the dictionaries themselves), so it both fills the statistics
     * table and writes downloads and peers into the registry.
     */
    method ListFiles(category: Option<String>, search: Option<String>) returns (r: Listing)
      requires Valid()
      modifies this
      ensures Valid()
      ensures var ids := ListedIds(old(files), old(order), category, search);
        order == old(order)
        && Tables(files, stats, statsOrder) == AnnotateAll(Tables(old(files), old(stats), old(statsOrder)), ids)
        && r == Listing(SortNewestFirst(Entries(files, ids)), |ids|, set id | id in files :: files[id].category)
      ensures NewestFirst(r.files)
      ensures forall f :: f in r.files ==> Matches(f, category, search)
    {
      var t;
      t, r := ListShared(Tables(files, stats, statsOrder), order, category, search);
      files, stats, statsOrder := t.files, t.stats, t.statsOrder;
    }

    /** `download_file`: both "not found" cases raise a 404 inside the `try`, which becomes a 500. */
    method Download(fileId: String, onDisk: bool) returns (r: Response<Delivery>)
      requires Valid()
      modifies this
      ensures Valid()
      ensures fileId !in old(files) ==> r == HttpError(500, ExceptionText(404, "File not found")) && unchanged(this)
      ensures fileId in old(files) && !onDisk ==>
        r == HttpError(500, ExceptionText(404, "File not found on disk")) && unchanged(this)
      ensures fileId in old(files) && onDisk ==>
        var f := old(files)[fileId];
        r == Ok(Delivery(f.filePath, f.originalName, f.contentType))
        && files == old(files) && order == old(order)
        && (stats, statsOrder) == Counted(old(stats), old(statsOrder), fileId)
    {
      if fileId !in files {
        return HttpError(500, ExceptionText(404, "File not found"));
      }
      var f := files[fileId];
      if !onDisk {
        return HttpError(500, ExceptionText(404, "File not found on disk"));
      }
      DownloadCountsOne(stats, statsOrder, fileId);
      var s := if fileId in stats then stats[fileId] else Stats(0, 1);
      if fileId !in stats {
        statsOrder := statsOrder + [fileId];
      }
      stats := stats[fileId := s.(downloads := s.downloads + 1)];
      r := Ok(Delivery(f.filePath, f.originalName, f.contentType));
    }

    /** `delete_shared_file`: drops the entry and its statistics; an unknown id is a 404 turned into a 500. */
    method Delete(fileId: String) returns (r: Response<String>)
      requires Valid()
      modifies this
      ensures Valid()
      ensures fileId !in old(files) ==> r == HttpError(500, ExceptionText(404, "File not found")) && unchanged(this)
      ensures fileId in old(files) ==>
        r == Ok("File deleted successfully")
        && files == old(files) - {fileId} && order == Filter(old(order), Other(fileId))
        && stats == old(stats) - {fileId} && statsOrder == Filter(old(statsOrder), Other(fileId))
    {
      if fileId !in files {
        return HttpError(500, ExceptionText(404, "File not found"));
      }
      FilterDistinct(order, Other(fileId));
      FilterMembers(order, Other(fileId));
      FilterDistinct(statsOrder, Other(fileId));
      FilterMembers(statsOrder, Other(fileId));
      files := files - {fileId};
      order := Filter(order, Other(fileId));
      stats := stats - {fileId};
      statsOrder := Filter(statsOrder, Other(fileId));
      r := Ok("File deleted successfully");
    }

    /** `get_p2p_stats`: reads both tables and changes neither. */
    method GetStats() returns (r: Report)
      requires Valid()
      ensures r.totalFiles == |order|
      ensures r.onlinePeers == Max(100, r.totalFiles * 10)
      ensures r.totalDownloads == TotalDownloads(stats, statsOrder)
      ensures r.categories == CategoryTotals(Entries(files, order))
      ensures r.networkStatus == "active"
    {
      var total := 0;
      var i := 0;
      while i < |statsOrder|
        invariant 0 <= i <= |statsOrder|
        invariant total == TotalDownloads(stats, statsOrder[..i])
      {
        TotalDownloadsAppend(stats, statsOrder[..i], statsOrder[i]);
        assert statsOrder[..i + 1] == statsOrder[..i] + [statsOrder[i]];
        total := total + stats[statsOrder[i]].downloads;
        i := i + 1;
      }
      assert statsOrder[..i] == statsOrder;
      var entries := Entries(files, order);
      var categories := [];
      var j := 0;
      while j < |entries|
        invariant 0 <= j <= |entries|
        invariant categories == CategoryTotals(entries[..j])
      {
        assert entries[..j + 1][..j] == entries[..j];
        categories := AddToCategory(categories, entries[j]);
        j := j + 1;
      }
      assert entries[..j] == entries;
      r := Report(Max(100, |order| * 10), |order|, total, categories, "active");
    }
  }
}
