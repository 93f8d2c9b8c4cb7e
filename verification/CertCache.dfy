/** The cache in front of the certificate store (storer_cache.go): it may lose any entry at any
    moment. `last` is history, the certificate stored last by a store that succeeded; the
    invariant says that both levels agree with it. */
module CertCache {
  import opened CertStore
  import opened Options

  ghost predicate Complete(dir: Directory, name: string, c: Certificate) {
    IsLatest(dir, name) && dir[name] == Folder(Some(c.cert), Some(c.key))
  }

  /** No folder is newer than the last reading of the clock. */
  ghost predicate NoneAfter(dir: Directory, clock: seq<nat>) {
    Reading(clock) && "" !in dir && forall n | IsFolder(dir, n) :: !Less(FolderName(clock), n)
  }

  /** A store at a time not before the last one makes its folder the latest. */
  lemma StoredIsLatest(dir: Directory, clock: seq<nat>, now: seq<nat>, c: Certificate)
    requires NoneAfter(dir, clock) && Reading(now) && !Earlier(now, clock)
    ensures var dir' := Stored(dir, FolderName(now), c, NoFault);
            Complete(dir', FolderName(now), c) && NoneAfter(dir', now)
  {
    var dir', name := Stored(dir, FolderName(now), c, NoFault), FolderName(now);
    LaterClock(dir, clock, now);
    LessTotal(name, name);
    assert |name| == |FolderName(now)| && name != "" by { NameNotEmpty(now); }
    forall n | IsFolder(dir', n) ensures !Less(name, n) {
      assert n == name || IsFolder(dir, n);
    }
  }

  lemma NameNotEmpty(t: seq<nat>)
    requires Reading(t)
    ensures FolderName(t) != ""
  {
    assert |Digits(t[0], 4)| == 4;
  }

  /** The clock moves on and nothing becomes newer than it. */
  lemma LaterClock(dir: Directory, clock: seq<nat>, now: seq<nat>)
    requires NoneAfter(dir, clock) && Reading(now) && !Earlier(now, clock)
    ensures NoneAfter(dir, now)
  {
    NamesAreChronological(now, clock);
    forall n | IsFolder(dir, n) ensures !Less(FolderName(now), n) {
      LessTotal(FolderName(clock), FolderName(now));
      if Less(FolderName(now), n) && Less(FolderName(clock), FolderName(now)) {
        LessTransitive(FolderName(clock), FolderName(now), n);
      }
    }
  }

  /** In a later second every store makes a newer folder. */
  lemma LaterIsNewest(dir: Directory, clock: seq<nat>, now: seq<nat>)
    requires NoneAfter(dir, clock) && Reading(now) && Earlier(clock, now) && forall n | n in dir :: dir[n].Folder?
    ensures IsNewest(dir, FolderName(now))
  {
    var name := FolderName(now);
    NamesAreChronological(clock, now);
    LessTotal(FolderName(clock), name);
    forall n | IsFolder(dir, n) ensures Less(n, name) {
      LessTotal(n, FolderName(clock));
      if Less(n, FolderName(clock)) {
        LessTransitive(n, FolderName(clock), name);
      }
    }
    if name in dir {
      assert IsFolder(dir, name);
    }
  }

  class TlsStorerCache {
    const storer: TlsStorer
    var cache: map<Domain, Certificate>
    ghost var last: map<Domain, Certificate>
    ghost var latest: map<Domain, string>
    ghost var clock: seq<nat>

    ghost predicate Valid()
      reads this, storer
    {
      && last.Keys == latest.Keys && Reading(clock)
      && (forall d | d in cache :: d in last && cache[d] == last[d])
      && (forall d | d in last :: d in storer.disk && Complete(storer.disk[d], latest[d], last[d]))
      && (forall d | d in storer.disk :: d in last && NoneAfter(storer.disk[d], clock))
    }

    constructor (clock: seq<nat>)
      requires Reading(clock)
      ensures Valid() && fresh(storer) && last == map[]
    {
      storer := new TlsStorer();
      cache, last, latest := map[], map[], map[];
      this.clock := clock;
    }

    /** Entries expire or are pushed out; a restart of the launcher drops them all. */
    method Evict(gone: set<Domain>)
      requires Valid()
      modifies this`cache
      ensures Valid() && cache == old(cache) - gone
    {
      cache := cache - gone;
    }

    /** `Store`. When the cache takes the entry and the disk store then fails, the new certificate
        is served although it is not the one stored last. */
    method Store(domain: Domain, c: Certificate, now: seq<nat>, cached: bool, fault: Fault) returns (ok: bool)
      requires Valid() && Reading(now) && !Earlier(now, clock)
      modifies this, storer
      ensures ok <==> cached && fault == NoFault
      ensures ok ==> Valid() && last == old(last)[domain := c]
      ensures !cached ==> Valid() && last == old(last)
      ensures cached && !ok ==> last == old(last) && domain in cache && cache[domain] == c
    {
      if !cached {
        return false;
      }
      cache := cache[domain := c];
      ghost var before := storer.DirectoryOf(domain);
      ok := storer.Store(domain, c, now, fault);
      if ok {
        StoredIsLatest(before, clock, now, c);
        forall d | d in storer.disk && d != domain ensures NoneAfter(storer.disk[d], now) {
          LaterClock(storer.disk[d], clock, now);
        }
        last, latest, clock := last[domain := c], latest[domain := FolderName(now)], now;
      }
    }

    /** `Resolve`: whatever has been evicted, a certificate that is returned is the one stored last.
        It is returned exactly when it is cached, or is still valid. */
    method Resolve(domain: Domain, listing: seq<string>, valid: Bytes -> bool, cached: bool) returns (r: Outcome)
      requires Valid()
      requires domain in storer.disk ==> forall n :: n in listing <==> n in storer.disk[domain]
      requires domain !in storer.disk ==> listing == []
      modifies this`cache
      ensures Valid()
      ensures r.Usable? ==> domain in last && r.c == last[domain]
      ensures r.Usable? <==> domain in old(cache) || (domain in last && valid(last[domain].cert))
      ensures r == NotFound <==> domain !in last
    {
      if domain in cache {
        return Usable(cache[domain]);
      }
      r := storer.Resolve(domain, listing, valid);
      if domain in last {
        AnswerOfLatest(storer.disk[domain], valid, r, latest[domain]);
      }
      if r.Usable? && cached {
        cache := cache[domain := r.c];
      }
    }
  }
}
