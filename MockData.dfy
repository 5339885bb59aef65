/** The profile fixtures and the scoring of `data/mockData.ts`: a verdict
    needs at least 5 reviews and a positive ratio of at least 0.8. */
module MockData {
  import opened Js
  import opened Scoring

  datatype Review = Review(
    id: string,
    reviewer: string,
    reviewerAddress: string,
    isPositive: bool,
    message: string,
    date: string,
    transactionId: string)

  datatype DeveloperProfile = DeveloperProfile(
    username: string,
    address: string,
    joinedDate: string,
    totalReviews: nat,
    positiveReviews: nat,
    negativeReviews: nat,
    trustScore: nat,
    isOptedIn: bool,
    bio: Option<string>,
    skills: Option<seq<string>>,
    projects: Option<seq<string>>,
    recentReviews: seq<Review>)

  /** Reviews needed before a verdict is given. */
  const MinReviews: nat := 5

  /** `getTrustVerdict(totalReviews, positiveRatio)`. */
  function GetTrustVerdict(totalReviews: nat, positiveRatio: Quotient): (v: Verdict)
    ensures totalReviews < MinReviews <==> v == InsufficientData
  {
    if totalReviews < MinReviews then InsufficientData
    else if AtLeast(positiveRatio, 4, 5) then Trusted
    else NotTrusted
  }

  /** `calculateTrustScore(positive, total)`: 0 for no reviews, otherwise
      the nearest integer to the positive percentage, never above 100. */
  function CalculateTrustScore(positive: nat, total: nat): (r: nat)
    ensures total == 0 ==> r == 0
    ensures total > 0 ==> 2 * total * r <= 200 * positive + total < 2 * total * (r + 1)
    ensures positive <= total ==> r <= 100
  {
    if total == 0 then 0
    else
      RoundedPercentBounds(if positive <= total then positive else 0, total);
      RoundedPercent(positive, total)
  }

  /** Below the sample threshold the ratio is never consulted, so the NaN of
      `0 / 0` cannot leak into the verdict. */
  lemma VerdictIgnoresRatioBelowThreshold(totalReviews: nat, q1: Quotient, q2: Quotient)
    requires totalReviews < MinReviews
    ensures GetTrustVerdict(totalReviews, q1) == GetTrustVerdict(totalReviews, q2) == InsufficientData
  {
  }

  /** The verdict of a count pair: trusted exactly when there are at least
      5 reviews and at least 80% of them are positive. */
  lemma {:induction false} VerdictOfCounts(positive: nat, total: nat)
    requires positive <= total
    ensures GetTrustVerdict(total, Quotient(positive, total)) == Trusted
            <==> total >= 5 && positive as real / total as real >= 0.8
    ensures GetTrustVerdict(total, Quotient(positive, total)) == NotTrusted
            <==> total >= 5 && positive as real / total as real < 0.8
  {
    if total >= 5 {
      QuotientComparesAsReal(Quotient(positive, total), 4, 5);
      assert 4 as real / 5 as real == 0.8;
    }
  }

  /** A full share scores 100. */
  lemma FullScore(t: nat)
    requires t > 0
    ensures CalculateTrustScore(t, t) == 100
  {
    RoundedPercentBounds(t, t);
  }

  /** For a fixed total the score never decreases as positives are added. */
  lemma ScoreMonotone(p1: nat, p2: nat, t: nat)
    requires p1 <= p2
    ensures CalculateTrustScore(p1, t) <= CalculateTrustScore(p2, t)
  {
    if t > 0 {
      RoundedPercentMonotone(p1, p2, t);
    }
  }

  /** The counts of a profile agree with each other and with its score. */
  predicate WellFormed(p: DeveloperProfile) {
    && p.totalReviews == p.positiveReviews + p.negativeReviews
    && p.trustScore == CalculateTrustScore(p.positiveReviews, p.totalReviews)
  }

  predicate UniqueReviewIds(rs: seq<Review>) {
    forall i, j :: 0 <= i < j < |rs| ==> rs[i].id != rs[j].id
  }

  /** What every entry of a profile table keeps: it is filed under its own
      username, its counts are consistent and its review ids are distinct. */
  predicate TableWellFormed(table: map<string, DeveloperProfile>) {
    forall k :: k in table ==> EntryWellFormed(k, table[k])
  }

  const Taufeeq := DeveloperProfile(
    "taufeeq.algo", "TAUF7YLXM2NQJZK3VWXR8PLMN4QWERTYUIOP9ASDFGHJKLZXCVBNM", "2024-01-15",
    47, 42, 5, 89, true,
    Some("Senior Full-stack developer specializing in Algorand dApps and smart contracts. Passionate about building decentralized solutions."),
    Some(["Algorand", "React", "Python", "Smart Contracts", "DeFi", "TypeScript", "Node.js"]),
    Some(["AlgoSwap DEX", "TrustMeBro Platform", "AlgoNFT Marketplace", "DeFi Lending Protocol"]),
    [ Review("1", "alice.algo", "ALICE123...", true,
        "Excellent work on the smart contract implementation. Very professional and delivered on time.",
        "2024-01-20", "TXN123ABC"),
      Review("2", "bob.algo", "BOB456...", true,
        "Great communication and technical skills. Highly recommended!", "2024-01-18", "TXN456DEF"),
      Review("3", "charlie.algo", "CHARLIE789...", false,
        "Project was delayed and communication could have been better.", "2024-01-15", "TXN789GHI"),
      Review("4", "diana.algo", "DIANA012...", true,
        "Outstanding developer! Built exactly what we needed with clean, efficient code.",
        "2024-01-12", "TXN012JKL"),
      Review("5", "eve.algo", "EVE345...", true,
        "Very knowledgeable about Algorand ecosystem. Great problem solver.", "2024-01-10", "TXN345MNO") ])

  const Kautilya := DeveloperProfile(
    "kautilya.algo", "KAUT7YLXM2NQJZK3VWXR8PLMN4QWERTYUIOP9ASDFGHJKLZXCVBNM", "2024-01-20",
    23, 20, 3, 87, true,
    Some("Blockchain developer focused on DeFi and NFT solutions"),
    Some(["Algorand", "JavaScript", "Python", "Smart Contracts"]),
    Some(["NFT Creator", "Token Bridge"]),
    [ Review("1", "frank.algo", "FRANK678...", true,
        "Solid work on the NFT marketplace. Good attention to detail.", "2024-01-22", "TXN678PQR") ])

  const TrustedDev := DeveloperProfile(
    "trusted_dev.algo", "TRUST123XLXM2NQJZK3VWXR8PLMN4QWERTYUIOP9ASDFGHJKLZXCVBNM", "2023-12-01",
    89, 81, 8, 91, true,
    Some("Senior blockchain developer with 5+ years experience"),
    Some(["Algorand", "Solidity", "Rust", "Go", "DeFi"]),
    Some(["AlgoBank", "DecentraSwap", "NFT Creator"]),
    [])

  const NewDev := DeveloperProfile(
    "new_dev.algo", "NEWDEV123XM2NQJZK3VWXR8PLMN4QWERTYUIOP9ASDFGHJKLZXCVBNM", "2024-01-25",
    3, 3, 0, 100, true,
    Some("New to the ecosystem but eager to learn and contribute"),
    Some(["JavaScript", "React", "Learning Algorand"]),
    Some(["Portfolio Site"]),
    [])

  /** `mockDeveloperProfiles`. */
  const MockDeveloperProfiles: map<string, DeveloperProfile> := map[
    "taufeeq.algo" := Taufeeq,
    "kautilya.algo" := Kautilya,
    "trusted_dev.algo" := TrustedDev,
    "new_dev.algo" := NewDev]

  predicate EntryWellFormed(k: string, p: DeveloperProfile) {
    p.username == k && WellFormed(p) && UniqueReviewIds(p.recentReviews)
  }

  lemma TaufeeqWellFormed() ensures EntryWellFormed("taufeeq.algo", Taufeeq) {
    assert CalculateTrustScore(42, 47) == 89;
  }

  lemma KautilyaWellFormed() ensures EntryWellFormed("kautilya.algo", Kautilya) {
    assert CalculateTrustScore(20, 23) == 87;
  }

  lemma TrustedDevWellFormed() ensures EntryWellFormed("trusted_dev.algo", TrustedDev) {
    assert CalculateTrustScore(81, 89) == 91;
  }

  lemma NewDevWellFormed() ensures EntryWellFormed("new_dev.algo", NewDev) {
    assert CalculateTrustScore(3, 3) == 100;
  }

  /** Filing a well-formed entry keeps a table well-formed. */
  lemma AddEntry(table: map<string, DeveloperProfile>, k: string, p: DeveloperProfile)
    requires TableWellFormed(table) && EntryWellFormed(k, p)
    ensures TableWellFormed(table[k := p])
  {
  }

  /** Every fixture is filed under its username, its totals are the sum of
      its positives and negatives, its stored score is the computed one, and
      its review ids are distinct. */
  lemma FixturesWellFormed()
    ensures TableWellFormed(MockDeveloperProfiles)
  {
    var m: map<string, DeveloperProfile> := map[];
    TaufeeqWellFormed();
    AddEntry(m, "taufeeq.algo", Taufeeq);
    m := m["taufeeq.algo" := Taufeeq];
    KautilyaWellFormed();
    AddEntry(m, "kautilya.algo", Kautilya);
    m := m["kautilya.algo" := Kautilya];
    TrustedDevWellFormed();
    AddEntry(m, "trusted_dev.algo", TrustedDev);
    m := m["trusted_dev.algo" := TrustedDev];
    NewDevWellFormed();
    AddEntry(m, "new_dev.algo", NewDev);
    m := m["new_dev.algo" := NewDev];
    assert m == MockDeveloperProfiles;
  }

  /** The table is keyed by the four fixture usernames. */
  lemma FixtureKeys()
    ensures MockDeveloperProfiles.Keys == {"taufeeq.algo", "kautilya.algo", "trusted_dev.algo", "new_dev.algo"}
    ensures MockDeveloperProfiles["new_dev.algo"] == NewDev
    ensures "unknown.algo" !in MockDeveloperProfiles
  {
  }

  /** The worked example of the scoring: 42 positive out of 47 scores 89
      and is trusted. */
  lemma TaufeeqScenario()
    ensures CalculateTrustScore(42, 47) == 89
    ensures GetTrustVerdict(47, Quotient(42, 47)) == Trusted
  {
  }
}
