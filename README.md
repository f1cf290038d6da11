# motoshop: profile-photo normalisation and choice tables

A Dafny model of the two pieces of logic in the motorcycle shop's data models
(`mysite/motoshop/models.py`):

- **`CustomUser.save`**: the user row is written first. Then, only when a
  photo is attached, the image is opened and cropped to its centred square of
  side `min(width, height)`. That box is computed with floor division. The
  image is then resized to 300x300 and written back over the same file.
  `Crop` holds the box arithmetic as pure functions with its properties:
  the box is square, inside the image, centred up to one pixel, keeps the
  shorter side whole, and is unique. `Users.CustomUser` is a class whose
  `Save` method follows the source's control flow. It records the row write,
  the optional file rewrite and their order, and the error raised when the
  file cannot be decoded.
- **The choice tables** `product_category`, `sizes` and `order_status`. Each
  table is kept exactly as declared, as a sequence of (code, label) pairs
  (`ChoiceTable`). Each one is paired with a tagged enumeration and its
  code/label functions (`Product`, `Order`). The proofs show that the
  enumeration and the table agree in both directions. They also show that
  each table is consistent with its `CharField` declaration: the codes are
  distinct, each is one character and so fits `max_length=1`, and the
  `status` default `'1'` is a code (Submitted).

Files: `wrappers.dfy` (Option), `choice_table.dfy`, `product.dfy`,
`order.dfy`, `crop.dfy`, `custom_user.dfy`.

Image sizes are non-negative (`nat`). For non-negative operands Dafny's `/`
agrees with Python's `//`, so the crop box uses `/` directly.

## Model

| member | source | states |
|---|---|---|
| `Crop.CropBox` | mysite/motoshop/models.py:16-20 | The box is a square of side `min(w, h)`. It lies inside the image. Its margin before (`left`, `top`) is at most the margin after (`w - right`, `h - bottom`), and they differ by at most one pixel. |
| `Crop.CropBoxIsTheCentredSquare` | mysite/motoshop/models.py:16-20 | A box is a centred square of side `min(w, h)` inside the image if and only if it is the computed crop box. This is uniqueness against an independent definition. |
| `Crop.ShorterSideKeptWhole` | mysite/motoshop/models.py:16-20 | If `w <= h` the box spans the full width (`left == 0`, `right == w`). Symmetrically for the height. |
| `Crop.SquareCropIsWhole` | mysite/motoshop/models.py:16-20 | For a square image the box is the whole image `(0, 0, n, n)`. |
| `Crop.PortraitExample` | mysite/motoshop/models.py:16-20 | A 400x600 image gives the box `(0, 100, 400, 500)`. |
| `Crop.CropMakesSquare` | mysite/motoshop/models.py:16-21 | Cropping any image to its crop box yields a `min(w, h)` square. A square image keeps its size. |
| `Crop.Normalized` | mysite/motoshop/models.py:16-22 | After crop and resize the photo is always 300x300, whatever the input size. |
| `Users.CustomUser.constructor` | mysite/motoshop/models.py:7-10 | A new user has the given optional photo, is not yet persisted, and has made no writes. |
| `Users.CustomUser.Save` | mysite/motoshop/models.py:12-23 | The row is always written, and it is the first new write. With no photo nothing else happens. An undecodable file leaves the row written and the photo untouched, and returns the decode error. Otherwise exactly one file rewrite follows the row write. That rewrite uses the centred-square box `CropBox(w, h)` of the original size, and the photo becomes 300x300. Every successful save leaves the photo normalised. A photo already at 300x300 keeps its size but is rewritten again. |
| `ChoiceTable.Label` | mysite/motoshop/models.py:88-100 | Table lookup, shown on `order_status` and used for all three tables. A code has a label exactly when some entry of the table stores it. The label returned is that entry's label. |
| `ChoiceTable.LabelOfEntry` | mysite/motoshop/models.py:32-37 | In a table with distinct codes, looking up any entry's code gives that entry's own label. Shown on `product_category` and used for all three tables. |
| `ChoiceTable.WellDeclaredAdmits` | mysite/motoshop/models.py:49-53 | For a field consistent with its table, a non-empty value is admitted exactly when the table has a label for it. The empty string has no label, and it is admitted exactly when the field is `blank`. A declared default is admitted. |
| `Product.CategoryIndex` | mysite/motoshop/models.py:32-37 | Each category sits in `product_category` with its own code and label. |
| `Product.CategoryRoundTrip` | mysite/motoshop/models.py:32-40 | Decoding a category's code returns that category. The table labels its code with the category's label. |
| `Product.ParseCategoryAgrees` | mysite/motoshop/models.py:32-40 | A code decodes to a category exactly when `product_category` lists it. The decoded category's code is that code. |
| `Product.CategoryFieldWellDeclared` | mysite/motoshop/models.py:32-40 | `product_category` has four distinct codes. Each is exactly one character, so each fits `max_length=1`. The field admits neither `None` nor `''`. |
| `Product.SizeIndex` | mysite/motoshop/models.py:42-48 | Each size sits in `sizes` with its own code and label. |
| `Product.SizeRoundTrip` | mysite/motoshop/models.py:42-53 | Decoding a size's code returns that size. The table labels its code with the size's label. |
| `Product.ParseSizeAgrees` | mysite/motoshop/models.py:42-53 | A code decodes to a size exactly when `sizes` lists it. The decoded size's code is that code. |
| `Product.SizeFieldWellDeclared` | mysite/motoshop/models.py:42-53 | `sizes` has five distinct codes. Each is exactly one character, so each fits `max_length=1`. Since the field is `null=True, blank=True`, it admits both `None` and `''`. |
| `Order.StatusIndex` | mysite/motoshop/models.py:88-96 | Each order state sits in `order_status` with its own code and label. |
| `Order.StatusRoundTrip` | mysite/motoshop/models.py:88-100 | Decoding a state's code returns that state. The table labels its code with the state's label. |
| `Order.ParseStatusAgrees` | mysite/motoshop/models.py:88-100 | A code decodes to a state exactly when `order_status` lists it. The decoded state's code is that code. |
| `Order.StatusFieldWellDeclared` | mysite/motoshop/models.py:88-100 | `order_status` has seven distinct codes. Each is exactly one character, so each fits `max_length=1`. The default `'1'` is among them and denotes Submitted. The field admits neither `None` nor `''`. |

## Left out

- Pixel contents: opening, cropping, Lanczos resampling and saving images are done by PIL and work on floating point. The model tracks only image sizes.
- Crop.Cropped and Crop.Resized are assumed abstractions of PIL's `crop` and `resize`, taken as given rather than proved. `Cropped` yields the box's width and height. `Resized` yields exactly the requested size. Because resizing fixes the output size, the crop box affects only which pixels survive. That is why `Save` records the box it cropped to in its file rewrite.
- Which files count as decodable is PIL's decision. The model takes it as given in `Users.StoredFile`. Decoded images have positive sizes, but the crop arithmetic is proved for all non-negative sizes.
- Writing the row (`super().save(*args, **kwargs)`) is Django's ORM. The model records it as one write and a `persisted` flag. The keyword arguments passed through are not modelled.
- The ORM's own rules are not modelled: field validation of decimal and positive-integer fields, `auto_now_add` timestamps, `on_delete` behaviour, `Meta.ordering`.
- ChoiceTable.Admits is an assumed abstraction of Django's field validation for these choice fields, taken as given. It treats `None` and `''` as empty values, which skip the choice and length checks and are governed by `blank` and `null`. Any other value must be a code that fits `max_length`.
- ChoiceTable.Label returns `None` for an unknown code. Django's display helper instead shows the raw code, and for duplicate codes the last entry wins. Neither difference matters for these tables: their codes are proved distinct, and only listed codes are admitted.
- The other model fields, `__str__`, and the verbose names are left out, as are `admin.py` (admin UI configuration) and `views.py` (a single product count passed to a template). None of these hold logic of their own.
- Concurrent saves of the same photo are not modelled: last writer wins.
