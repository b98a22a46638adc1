/**
 * The printable registration record: a single pass that places text, a
 * panel and an optional photo on an A4 page (210 x 297 units) by moving a
 * vertical cursor down by fixed amounts. The drawing calls become a list of
 * draw instructions; reading the photo file becomes an outcome parameter.
 */
module PdfGenerator {
  import opened Types
  import opened Strings

  datatype Align = Left | Right | Center

  /** One drawing call on the document, in page units. */
  datatype DrawOp =
    | FillRect(x: int, y: int, w: int, h: int)
    | RoundedBox(x: int, y: int, w: int, h: int, rx: int, ry: int)
    | Rule(x1: int, y1: int, x2: int, y2: int)
    | Text(text: string, x: int, y: int, align: Align)
    | Image(data: string, format: string, x: int, y: int, w: int, h: int)
    | AddPage

  /** What reading (and embedding) the chosen photo produced. */
  datatype PhotoRead = Loaded(dataUrl: string) | ReadFailed

  /** The finished document and the name it is saved under. */
  datatype Pdf = Pdf(ops: seq<DrawOp>, fileName: string)

  const Brand := "Damar Global Network"
  const DocumentTitle := "Bukti Pendaftaran Layanan Internet"
  const ScheduleFallback := "Menunggu Konfirmasi"
  const ImageFallback := "(Gagal memuat gambar rumah)"
  const FooterNotice := "* Harap kirim via WA ke admin, dan simpan dokumen ini sebagai bukti pendaftaran."
  const FooterContact := "* Tim kami akan menghubungi Anda untuk konfirmasi teknis."
  const FileNamePrefix := "Bukti-Pendaftaran-Damar-"

  /** Below this cursor value the footer would not fit on the page. */
  const PageBottom := 270
  /** Where the cursor restarts on a fresh page. */
  const TopMargin := 30
  /** The cursor when the photo section begins, whatever the record holds. */
  const PhotoSectionY := 164

  const DetailLabels: seq<string> :=
    ["Nama Lengkap", "NIK", "Email", "No. WhatsApp", "Alamat Pemasangan", "Jadwal Instalasi"]

  // ---------------------------------------------------------------------
  // Price text: `toLocaleString('id-ID')` on a whole number
  // ---------------------------------------------------------------------

  /** Exactly three digits, with leading zeros. */
  function Pad3(b: nat): (s: string)
    requires b < 1000
    ensures |s| == 3 && AllDigits(s)
  {
    [DigitChar(b / 10 / 10), DigitChar(b / 10 % 10), DigitChar(b % 10)]
  }

  /** The characters of s other than '.'. */
  function RemoveDots(s: string): string
  {
    if |s| == 0 then "" else (if s[0] == '.' then "" else [s[0]]) + RemoveDots(s[1..])
  }

  lemma {:induction false} RemoveDotsAppend(a: string, b: string)
    ensures RemoveDots(a + b) == RemoveDots(a) + RemoveDots(b)
  {
    if |a| > 0 {
      assert (a + b)[1..] == a[1..] + b;
      RemoveDotsAppend(a[1..], b);
    } else {
      assert a + b == b;
    }
  }

  lemma {:induction false} RemoveDotsDigits(s: string)
    requires AllDigits(s)
    ensures RemoveDots(s) == s
  {
    if |s| > 0 {
      RemoveDotsDigits(s[1..]);
    }
  }

  lemma DecimalBelow1000(n: nat)
    requires n < 1000
    ensures |Decimal(n)| <= 3
  {
    if n >= 10 {
      assert |Decimal(n)| == |Decimal(n / 10)| + 1;
      if n / 10 >= 10 {
        assert |Decimal(n / 10)| == |Decimal(n / 10 / 10)| + 1;
        assert n / 10 / 10 < 10;
      }
    }
  }

  /** Every fourth character counted from the right is a '.', every other one a digit, the first not a '.'. */
  predicate Grouped(s: string)
  {
    && |s| > 0 && s[0] != '.'
    && (forall i :: 0 <= i < |s| ==> (s[i] == '.' <==> (|s| - i) % 4 == 0))
    && (forall i :: 0 <= i < |s| && s[i] != '.' ==> IsDigit(s[i]))
  }

  lemma GroupedShort(d: string)
    requires 0 < |d| <= 3 && AllDigits(d)
    ensures Grouped(d)
  {
    forall i | 0 <= i < |d| ensures d[i] != '.' && (|d| - i) % 4 != 0 {
      assert IsDigit(d[i]);
    }
  }

  lemma GroupedAppend(g: string, t: string)
    requires Grouped(g) && |t| == 3 && AllDigits(t)
    ensures Grouped(g + "." + t)
  {
    var s := g + "." + t;
    forall i | 0 <= i < |s|
      ensures (s[i] == '.' <==> (|s| - i) % 4 == 0) && (s[i] != '.' ==> IsDigit(s[i]))
    {
      if i < |g| {
        assert s[i] == g[i];
        assert |s| - i == (|g| - i) + 4;
      } else if i > |g| {
        assert s[i] == t[i - |g| - 1];
        assert 1 <= |s| - i <= 3;
      }
    }
  }

  /**
   * Whole-number grouping in the Indonesian locale (CLDR `id`): groups of
   * three digits from the right, separated by '.', no decimal part.
   */
  function GroupThousands(n: nat): (s: string)
    ensures Grouped(s)
    decreases n
  {
    if n < 1000 then
      DecimalBelow1000(n);
      GroupedShort(Decimal(n));
      Decimal(n)
    else
      var g := GroupThousands(n / 1000);
      GroupedAppend(g, Pad3(n % 1000));
      g + "." + Pad3(n % 1000)
  }

  /** The price line of the selected-plan panel. */
  function PriceText(price: nat): (s: string)
    ensures |s| > 3 && s[..3] == "Rp "
    ensures Grouped(s[3..]) && RemoveDots(s[3..]) == Decimal(price)
    ensures AllDigits(RemoveDots(s[3..])) && ParseDecimal(RemoveDots(s[3..])) == price
  {
    GroupThousandsDigits(price);
    GroupThousandsRoundTrip(price);
    assert ("Rp " + GroupThousands(price))[3..] == GroupThousands(price);
    "Rp " + GroupThousands(price)
  }

  lemma DecimalAppendDigit(a: nat, d: nat)
    requires a >= 1 && d < 10
    ensures Decimal(10 * a + d) == Decimal(a) + [DigitChar(d)]
  {
    assert (10 * a + d) / 10 == a;
    assert (10 * a + d) % 10 == d;
  }

  lemma ThousandsDigits(a: nat, b: nat)
    requires b < 1000
    ensures b / 10 / 10 < 10
    ensures 1000 * a + b == 10 * (10 * (10 * a + b / 10 / 10) + b / 10 % 10) + b % 10
  {
  }

  lemma DecimalThousands(a: nat, b: nat)
    requires a >= 1 && b < 1000
    ensures Decimal(1000 * a + b) == Decimal(a) + Pad3(b)
  {
    ThousandsDigits(a, b);
    var d0, d1, d2 := b / 10 / 10, b / 10 % 10, b % 10;
    var c1 := 10 * a + d0;
    var c2 := 10 * c1 + d1;
    DecimalAppendDigit(a, d0);
    DecimalAppendDigit(c1, d1);
    DecimalAppendDigit(c2, d2);
    assert Decimal(a) + [DigitChar(d0)] + [DigitChar(d1)] + [DigitChar(d2)] == Decimal(a) + Pad3(b);
  }

  lemma DecimalSplit(n: nat)
    requires n >= 1000
    ensures Decimal(n) == Decimal(n / 1000) + Pad3(n % 1000)
  {
    var a, b := n / 1000, n % 1000;
    assert n == 1000 * a + b;
    DecimalThousands(a, b);
  }

  lemma RemoveDotsGroup(t: string)
    requires AllDigits(t)
    ensures RemoveDots("." + t) == t
  {
    RemoveDotsAppend(".", t);
    RemoveDotsDigits(t);
  }

  /** Dropping the separators gives the plain decimal digits of the price. */
  lemma {:induction false} GroupThousandsDigits(n: nat)
    ensures RemoveDots(GroupThousands(n)) == Decimal(n)
    decreases n
  {
    if n < 1000 {
      RemoveDotsDigits(Decimal(n));
    } else {
      var g := GroupThousands(n / 1000);
      var t := Pad3(n % 1000);
      assert GroupThousands(n) == g + ("." + t);
      GroupThousandsDigits(n / 1000);
      RemoveDotsAppend(g, "." + t);
      RemoveDotsGroup(t);
      DecimalSplit(n);
    }
  }

  /** The grouped text reads back as the price it was made from. */
  lemma GroupThousandsRoundTrip(n: nat)
    ensures AllDigits(RemoveDots(GroupThousands(n)))
    ensures ParseDecimal(RemoveDots(GroupThousands(n))) == n
  {
    GroupThousandsDigits(n);
    DecimalRoundTrip(n);
  }

  lemma Decimal165()
    ensures Decimal(165) == "165"
  {
    assert Decimal(1) == "1";
    assert Decimal(16) == "16";
  }

  lemma Grouped165000()
    ensures GroupThousands(165000) == "165.000"
  {
    Decimal165();
    assert GroupThousands(165) == "165";
    assert Pad3(0) == "000";
    assert GroupThousands(165000) == "165" + "." + "000";
  }

  lemma Decimal200()
    ensures Decimal(200) == "200"
  {
    assert Decimal(2) == "2";
    assert Decimal(20) == "20";
  }

  lemma Grouped200000()
    ensures GroupThousands(200000) == "200.000"
  {
    Decimal200();
    assert GroupThousands(200) == "200";
    assert Pad3(0) == "000";
    assert GroupThousands(200000) == "200" + "." + "000";
  }

  /** The Hemat plan's price, as the panel shows it. */
  lemma PriceText165000()
    ensures PriceText(165000) == "Rp 165.000"
  {
    Grouped165000();
  }

  /** The family plan's price, as the panel shows it. */
  lemma PriceText200000()
    ensures PriceText(200000) == "Rp 200.000"
  {
    Grouped200000();
  }

  // ---------------------------------------------------------------------
  // File name: `fullName.replace(/[^a-zA-Z0-9]/g, '-')`
  // ---------------------------------------------------------------------

  predicate IsAsciiAlnum(c: char)
  {
    ('a' <= c <= 'z') || ('A' <= c <= 'Z') || ('0' <= c <= '9')
  }

  /** Each character outside [a-zA-Z0-9] becomes '-', one for one. */
  function Sanitize(s: string): (r: string)
    ensures |r| == |s|
    ensures forall i :: 0 <= i < |s| ==> r[i] == (if IsAsciiAlnum(s[i]) then s[i] else '-')
  {
    if |s| == 0 then "" else [if IsAsciiAlnum(s[0]) then s[0] else '-'] + Sanitize(s[1..])
  }

  /** Only letters, digits and hyphens. */
  predicate SafeName(s: string)
  {
    forall i :: 0 <= i < |s| ==> IsAsciiAlnum(s[i]) || s[i] == '-'
  }

  /** The sanitised name is safe, and sanitising changes a name exactly when it is not. */
  lemma SanitizeFixedPoints(s: string)
    ensures SafeName(Sanitize(s))
    ensures Sanitize(s) == s <==> SafeName(s)
  {
    if SafeName(s) {
      assert forall i :: 0 <= i < |s| ==> Sanitize(s)[i] == s[i];
    }
  }

  /** Sanitising twice is sanitising once. */
  lemma SanitizeIdempotent(s: string)
    ensures Sanitize(Sanitize(s)) == Sanitize(s)
  {
    SanitizeFixedPoints(s);
    SanitizeFixedPoints(Sanitize(s));
  }

  /** The name the document is saved under. */
  function FileName(fullName: string): (r: string)
    ensures |r| == |FileNamePrefix| + |fullName| + 4
    ensures r[..|FileNamePrefix|] == FileNamePrefix && r[|r| - 4..] == ".pdf"
    ensures r[|FileNamePrefix|..|r| - 4] == Sanitize(fullName)
  {
    FileNamePrefix + Sanitize(fullName) + ".pdf"
  }

  /** Two customers get the same file name exactly when their names sanitise alike. */
  lemma FileNameCollision(a: string, b: string)
    ensures FileName(a) == FileName(b) <==> Sanitize(a) == Sanitize(b)
  {
    if FileName(a) == FileName(b) {
      assert Sanitize(a) == FileName(a)[|FileNamePrefix|..|FileName(a)| - 4];
    }
  }

  // ---------------------------------------------------------------------
  // Layout
  // ---------------------------------------------------------------------

  /** The values of the customer table, in the order of DetailLabels. */
  function DetailValues(form: FormData): seq<string>
  {
    [form.fullName, form.nik, form.email, form.phone, form.address,
     if form.installationDate == "" then ScheduleFallback else form.installationDate]
  }

  // The expected output of each section, given the cursor it starts at.

  /** Header band, meta line (cursor 40), section title (50), rule (54), table title (64). */
  function HeaderOps(regId: string, dateText: string): seq<DrawOp>
  {
    [FillRect(0, 0, 210, 25), Text(Brand, 20, 17, Left), Text(DocumentTitle, 190, 17, Right),
     Text("Tanggal: " + dateText, 20, 40, Left), Text("ID Registrasi: " + regId, 190, 40, Right),
     Text("Detail Pendaftaran", 20, 50, Left), Rule(20, 54, 190, 54),
     Text("Informasi Pelanggan", 20, 64, Left)]
  }

  /** The first n rows of the customer table, the first one at cursor top. */
  function TableOps(form: FormData, top: int, n: nat): seq<DrawOp>
    requires n <= |DetailLabels|
  {
    if n == 0 then []
    else
      var y := top + 6 * (n - 1);
      TableOps(form, top, n - 1)
        + [Text(DetailLabels[n - 1], 20, y, Left), Text(": " + DetailValues(form)[n - 1], 70, y, Left)]
  }

  /** Plan title 8 below the table, the 170 x 30 panel 8 further, name and price inside. */
  function PanelOps(plan: WifiPlan, y0: int): seq<DrawOp>
  {
    [Text("Paket Pilihan", 20, y0 + 8, Left), RoundedBox(20, y0 + 16, 170, 30, 3, 3),
     Text(plan.name, 30, y0 + 28, Left), Text("Biaya Bulanan", 30, y0 + 34, Left),
     Text(PriceText(plan.price), 180, y0 + 34, Right)]
  }

  function PhotoOps(photo: Option<File>, read: PhotoRead, y0: int): seq<DrawOp>
  {
    match (photo, read)
    case (None, _) => []
    case (Some(_), Loaded(dataUrl)) => [Text("Foto Rumah", 20, y0, Left), Image(dataUrl, "JPEG", 20, y0 + 5, 80, 60)]
    case (Some(_), ReadFailed) => [Text("Foto Rumah", 20, y0, Left), Text(ImageFallback, 20, y0 + 5 + 5, Left)]
  }

  /** How far the photo section moves the cursor. */
  function PhotoAdvance(photo: Option<File>, read: PhotoRead): int
  {
    match (photo, read)
    case (None, _) => 10
    case (Some(_), Loaded(_)) => 5 + 65
    case (Some(_), ReadFailed) => 5 + 15
  }

  /** The overflow check, then the two footer lines. */
  function FooterOps(y0: int): seq<DrawOp>
  {
    var y := if y0 > PageBottom then TopMargin else y0;
    (if y0 > PageBottom then [AddPage] else [])
      + [Text(FooterNotice, 105, y, Center), Text(FooterContact, 105, y + 4, Center)]
  }

  /** The whole document for a record, a plan, an id, a date and a photo outcome. */
  function Layout(form: FormData, plan: WifiPlan, regId: string, dateText: string, read: PhotoRead): seq<DrawOp>
  {
    HeaderOps(regId, dateText)
      + TableOps(form, 72, |DetailLabels|)
      + PanelOps(plan, 72 + 6 * |DetailLabels|)
      + PhotoOps(form.housePhotoFile, read, PhotoSectionY)
      + FooterOps(PhotoSectionY + PhotoAdvance(form.housePhotoFile, read))
  }

  // The methods that emit each section, advancing the cursor as the source does.

  method EmitHeader(regId: string, dateText: string) returns (ops: seq<DrawOp>, yPos: int)
    ensures ops == HeaderOps(regId, dateText) && yPos == 72
  {
    ops := [FillRect(0, 0, 210, 25)];
    ops := ops + [Text(Brand, 20, 17, Left)];
    ops := ops + [Text(DocumentTitle, 190, 17, Right)];

    yPos := 40;
    ops := ops + [Text("Tanggal: " + dateText, 20, yPos, Left)];
    ops := ops + [Text("ID Registrasi: " + regId, 190, yPos, Right)];
    yPos := yPos + 10;

    ops := ops + [Text("Detail Pendaftaran", 20, yPos, Left)];
    yPos := yPos + 4;
    ops := ops + [Rule(20, yPos, 190, yPos)];
    yPos := yPos + 10;

    ops := ops + [Text("Informasi Pelanggan", 20, yPos, Left)];
    yPos := yPos + 8;
  }

  /** The `forEach` over the six customer rows, six units apart. */
  method EmitDetails(ops0: seq<DrawOp>, y0: int, form: FormData) returns (ops: seq<DrawOp>, yPos: int)
    ensures ops == ops0 + TableOps(form, y0, |DetailLabels|)
    ensures yPos == y0 + 6 * |DetailLabels|
  {
    ops, yPos := ops0, y0;
    var values := DetailValues(form);
    for i := 0 to |DetailLabels|
      invariant ops == ops0 + TableOps(form, y0, i)
      invariant yPos == y0 + 6 * i
    {
      ops := ops + [Text(DetailLabels[i], 20, yPos, Left)];
      ops := ops + [Text(": " + values[i], 70, yPos, Left)];
      yPos := yPos + 6;
    }
  }

  method EmitPlanPanel(ops0: seq<DrawOp>, y0: int, plan: WifiPlan) returns (ops: seq<DrawOp>, yPos: int)
    ensures ops == ops0 + PanelOps(plan, y0)
    ensures yPos == y0 + 8 + 8 + 40
  {
    yPos := y0 + 8;
    ops := ops0 + [Text("Paket Pilihan", 20, yPos, Left)];
    yPos := yPos + 8;

    ops := ops + [RoundedBox(20, yPos, 170, 30, 3, 3)];
    var boxY := yPos + 12;
    ops := ops + [Text(plan.name, 30, boxY, Left)];
    var priceY := boxY + 6;
    ops := ops + [Text("Biaya Bulanan", 30, priceY, Left)];
    ops := ops + [Text(PriceText(plan.price), 180, priceY, Right)];
    yPos := yPos + 40;
  }

  /** The photo branch; a failed read degrades to a notice and never aborts. */
  method EmitPhoto(ops0: seq<DrawOp>, y0: int, photo: Option<File>, read: PhotoRead)
    returns (ops: seq<DrawOp>, yPos: int)
    ensures ops == ops0 + PhotoOps(photo, read, y0)
    ensures yPos == y0 + PhotoAdvance(photo, read)
  {
    ops, yPos := ops0, y0;
    if photo.Some? {
      ops := ops + [Text("Foto Rumah", 20, yPos, Left)];
      yPos := yPos + 5;
      match read
      case Loaded(dataUrl) =>
        ops := ops + [Image(dataUrl, "JPEG", 20, yPos, 80, 60)];
        yPos := yPos + 65;
      case ReadFailed =>
        ops := ops + [Text(ImageFallback, 20, yPos + 5, Left)];
        yPos := yPos + 15;
    } else {
      yPos := yPos + 10;
    }
  }

  method EmitFooter(ops0: seq<DrawOp>, y0: int) returns (ops: seq<DrawOp>)
    ensures ops == ops0 + FooterOps(y0)
  {
    ops := ops0;
    var yPos := y0;
    if yPos > PageBottom {
      ops := ops + [AddPage];
      yPos := TopMargin;
    }
    ops := ops + [Text(FooterNotice, 105, yPos, Center)];
    yPos := yPos + 4;
    ops := ops + [Text(FooterContact, 105, yPos, Center)];
  }

  /**
   * generateRegistrationPDF. dateText stands for the locale date of the
   * moment of generation; read is what reading the photo file gives, and
   * matters only when the record holds a photo. The cursor starts at 40
   * and reaches the photo section at 164 whatever the record holds.
   */
  method GenerateRegistrationPdf(form: FormData, plan: WifiPlan, regId: string, dateText: string, read: PhotoRead)
    returns (pdf: Pdf)
    ensures pdf.ops == Layout(form, plan, regId, dateText, read)
    ensures pdf.fileName == FileName(form.fullName)
  {
    var ops, yPos := EmitHeader(regId, dateText);
    ops, yPos := EmitDetails(ops, yPos, form);
    ops, yPos := EmitPlanPanel(ops, yPos, plan);
    assert yPos == PhotoSectionY;
    ops, yPos := EmitPhoto(ops, yPos, form.housePhotoFile, read);
    ops := EmitFooter(ops, yPos);
    pdf := Pdf(ops, FileName(form.fullName));
  }

  // What the document holds, for every record, plan, id, date and photo outcome.

  /** Row j of the customer table: label at x=20 and ": value" at x=70, six units per row. */
  ghost predicate DetailRowAt(ops: seq<DrawOp>, start: nat, top: int, form: FormData, j: nat)
    requires j < |DetailLabels|
  {
    && start + 2 * j + 1 < |ops|
    && ops[start + 2 * j] == Text(DetailLabels[j], 20, top + 6 * j, Left)
    && ops[start + 2 * j + 1] == Text(": " + DetailValues(form)[j], 70, top + 6 * j, Left)
  }

  /** The two centred footer lines at x=105, the second 4 units below the first, end the list. */
  ghost predicate FooterAt(ops: seq<DrawOp>, y: int)
  {
    && |ops| >= 2
    && ops[|ops| - 2] == Text(FooterNotice, 105, y, Center)
    && ops[|ops| - 1] == Text(FooterContact, 105, y + 4, Center)
  }

  lemma {:induction false} TableOpsRows(form: FormData, top: int, n: nat)
    requires n <= |DetailLabels|
    ensures |TableOps(form, top, n)| == 2 * n
    ensures forall j :: 0 <= j < n ==> DetailRowAt(TableOps(form, top, n), 0, top, form, j)
    ensures forall k :: 0 <= k < 2 * n ==> TableOps(form, top, n)[k].Text?
  {
    if n > 0 {
      TableOpsRows(form, top, n - 1);
      var prev := TableOps(form, top, n - 1);
      var ops := TableOps(form, top, n);
      assert forall k :: 0 <= k < |prev| ==> ops[k] == prev[k];
      forall j | 0 <= j < n ensures DetailRowAt(ops, 0, top, form, j) {
        if j < n - 1 { assert DetailRowAt(prev, 0, top, form, j); }
      }
    }
  }

  /** The header, meta line, customer table, plan panel in their fixed places. */
  lemma LayoutFixedPart(form: FormData, plan: WifiPlan, regId: string, dateText: string, read: PhotoRead)
    ensures var ops := Layout(form, plan, regId, dateText, read);
      && |ops| >= 27
      && ops[3] == Text("Tanggal: " + dateText, 20, 40, Left)
      && ops[4] == Text("ID Registrasi: " + regId, 190, 40, Right)
      && (forall j :: 0 <= j < |DetailLabels| ==> DetailRowAt(ops, 8, 72, form, j))
      && ops[19] == Text(": " + (if form.installationDate == "" then ScheduleFallback else form.installationDate), 70, 102, Left)
      && ops[21] == RoundedBox(20, 124, 170, 30, 3, 3)
      && ops[22] == Text(plan.name, 30, 136, Left)
      && ops[24] == Text(PriceText(plan.price), 180, 142, Right)
  {
    var ops := Layout(form, plan, regId, dateText, read);
    var table := TableOps(form, 72, |DetailLabels|);
    TableOpsRows(form, 72, |DetailLabels|);
    var front := HeaderOps(regId, dateText) + table + PanelOps(plan, 108);
    assert ops[..25] == front;
    assert forall k :: 0 <= k < 12 ==> ops[8 + k] == table[k];
    forall j | 0 <= j < |DetailLabels| ensures DetailRowAt(ops, 8, 72, form, j) {
      assert DetailRowAt(table, 0, 72, form, j);
    }
    assert DetailRowAt(table, 0, 72, form, 5);
  }

  /**
   * The photo section starts at 164 and branches three ways: a photo that
   * reads is placed in an 80 x 60 box and the footer follows at 234; one
   * that fails gets the italic notice 5 below the cursor and the footer at
   * 184; no photo puts the footer at 174.
   */
  lemma LayoutPhotoBranches(form: FormData, plan: WifiPlan, regId: string, dateText: string, read: PhotoRead)
    ensures var ops := Layout(form, plan, regId, dateText, read);
      && (form.housePhotoFile.Some? ==> |ops| == 29 && ops[25] == Text("Foto Rumah", 20, PhotoSectionY, Left))
      && (form.housePhotoFile.Some? && read.Loaded? ==>
            ops[26] == Image(read.dataUrl, "JPEG", 20, 169, 80, 60) && FooterAt(ops, 234))
      && (form.housePhotoFile.Some? && read.ReadFailed? ==>
            ops[26] == Text(ImageFallback, 20, 174, Left) && FooterAt(ops, 184))
      && (form.housePhotoFile.None? ==> |ops| == 27 && FooterAt(ops, 174))
  {
    TableOpsRows(form, 72, |DetailLabels|);
    var ops := Layout(form, plan, regId, dateText, read);
    var front := HeaderOps(regId, dateText) + TableOps(form, 72, |DetailLabels|) + PanelOps(plan, 108);
    assert |front| == 25;
    assert ops[25..] == PhotoOps(form.housePhotoFile, read, PhotoSectionY)
      + FooterOps(PhotoSectionY + PhotoAdvance(form.housePhotoFile, read));
  }

  /** The single overflow check never fires: the document is always one page. */
  lemma LayoutSinglePage(form: FormData, plan: WifiPlan, regId: string, dateText: string, read: PhotoRead)
    ensures AddPage !in Layout(form, plan, regId, dateText, read)
    ensures PhotoSectionY + PhotoAdvance(form.housePhotoFile, read) <= PageBottom
  {
    TableOpsRows(form, 72, |DetailLabels|);
    var ops := Layout(form, plan, regId, dateText, read);
    var table := TableOps(form, 72, |DetailLabels|);
    var front := HeaderOps(regId, dateText) + table;
    assert ops == front + PanelOps(plan, 108) + PhotoOps(form.housePhotoFile, read, PhotoSectionY)
      + FooterOps(PhotoSectionY + PhotoAdvance(form.housePhotoFile, read));
    forall k | 0 <= k < |ops| ensures ops[k] != AddPage {
      if k < 8 {
        assert ops[k] == HeaderOps(regId, dateText)[k];
      } else if k < 20 {
        assert ops[k] == table[k - 8];
      }
    }
  }
}
