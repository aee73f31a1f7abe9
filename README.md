# GAIA crop recommendation: a verified model of its request logic

GAIA is a Django web application. It takes soil measurements, either typed in
by hand or uploaded as a CSV file, and recommends crops with a random-forest
classifier. This project models the application's own decision logic in Dafny
and proves what that logic promises. The classifier, the ORM and the HTTP layer
are outside the model.

The modules follow the source files:

- `Wrappers` (wrappers.dfy): `Option`, `Result` and `Min`.
- `Strings` (strings.dfy): the string operations the application uses.
  These are `endswith`/`startswith`, the decimal text of an id, and ASCII
  `lower()`/`title()`.
- `Models` (models.dfy): `predictions/models.py`.
  - `upload_to` and its inverse.
  - The seven soil parameters and `NORMAL_RANGES`.
  - `SoilData.get_alerts` as a loop method, proved against a specification
    function.
- `Serializers` (serializers.dfy): `predictions/serializers.py`.
  - The CSV file gate.
  - `SoilDataSerializer.validate`, which reports the first error and reads a
    missing key as 0.
  - `ManualPredictionSerializer`, which reports every failing field.
- `MlModel` (ml_model.dfy): `predictions/ml_model.py`.
  - The label and info tables.
  - The feature vector.
  - The top-three selection (`argsort(p)[-3:][::-1]`) and assembly of the reply.
  - The layout of the synthetic training frame.
  - The class `CropPredictionModel`, whose `model`/`scaler` fields
    `train_model` and `predict` update in place.
- `Views` (views.dfy): `predictions/views.py`.
  - The database is a class `Store`. Its dataset, soil-record and prediction
    tables are sequence fields, and every id comes from one counter.
  - The handlers are methods over the store and the model:
    - `upload_csv`;
    - `predict_manual`, as written and corrected;
    - `predict_csv`.
  - The helpers that fill those tables, the record slotting and the `crop_info`
    lookup are functions.

The classifier is a parameter. `proba: seq<real> -> seq<real>` stands for
`scaler.transform` followed by `predict_proba`. Whether the pickled artefacts
exist on disk is a boolean parameter, `filesExist`. A parsed CSV file is its
header plus rows of pre-classified cells.

## Model

| member | source | states |
|---|---|---|
| Strings.NatToString | predictions/models.py:6 | The text of an id is a non-empty string of digits with no leading zero. |
| Strings.StringToNatOfNatToString | predictions/models.py:6 | Reading that text back gives the id, so an id's text determines the id. |
| Strings.AsciiLower | predictions/views.py:293 | Keeps the length. Leaves no upper-case letter. Changes only upper-case letters, each into the lower-case letter 32 code points above it (`A`..`Z` to `a`..`z`). |
| Strings.AsciiLowerIdempotent | predictions/views.py:302 | Lower-casing the key again changes nothing. |
| Strings.Title | predictions/ml_model.py:148 | The `title()` fallback keeps the length of the label. |
| Models.UploadTo | predictions/models.py:5-6 | The path starts with `datasets/user_` and ends with `/` plus the file name. |
| Models.UploadToRoundTrip | predictions/models.py:5-6 | The path built for (user, file name) parses back to exactly that user and file name, so two uploads share a path only when both agree. |
| Models.ParamsComplete | predictions/models.py:68-76 | The checks list covers every parameter. |
| Models.DisplayNameInjective | predictions/models.py:68-76 | Different parameters have different display names. |
| Models.OutOfRange | predictions/models.py:79-91 | A parameter is listed exactly when it is visited and lies outside its normal range. |
| Models.GetAlerts | predictions/models.py:64-93 | The loop's result is the specification `AlertsOver(m, Params)`. The record is a value, so it is unchanged. |
| Models.AlertsAreOutOfRangeInOrder | predictions/models.py:68-91 | There is one alert per out-of-range parameter, in visiting order, and never more alerts than parameters visited. |
| Models.AtMostSevenAlerts | predictions/models.py:78-91 | There are at most seven alerts. |
| Models.AlertIffOutOfRange | predictions/models.py:46-54 | A parameter has an alert iff its value is strictly below the minimum or strictly above the maximum of its `NORMAL_RANGES` entry, so a value on a bound gives none. |
| Models.AlertCitesBound | predictions/models.py:81-91 | Every alert is `danger` and names an out-of-range parameter. A low alert cites the minimum and a high alert cites the maximum. |
| Models.NoAlertsIffAllInRange | predictions/models.py:64-93 | The list is empty iff every parameter is within its normal range. |
| Serializers.ValidateFile | predictions/serializers.py:10-17 | Accepts iff the name ends in `.csv` and the size is at most 10485760 bytes, returning the file unchanged. A failure gives the extension message for a non-CSV name and the size message otherwise, so the extension check comes first. |
| Serializers.FileSizeBoundary | predictions/serializers.py:14-15 | Exactly 10485760 bytes pass and 10485761 fail with the size error. An oversized non-CSV file gets the extension error. |
| Serializers.FirstRejected | predictions/serializers.py:26-40 | Returns no index iff every guard admits the data. Otherwise it returns the first failing guard, and every earlier guard admits. |
| Serializers.ValidateSoilData | predictions/serializers.py:26-42 | Succeeds iff every range guard admits, returning the input unchanged. Otherwise it reports the field and message of the first failing guard in field order. |
| Serializers.SoilDataRanges | predictions/serializers.py:27-40 | Spells out every range, each inclusive and read through `get(key, 0)`: N, P and K in [0,500], temperature in [-10,50], humidity in [0,100], ph in [0,14], rainfall in [0,3000]. |
| Serializers.RejectedFieldIsPresent | predictions/serializers.py:27-39 | The field a rejection names is always present in the data. |
| Serializers.AbsentFieldAdmitted | predictions/serializers.py:27-39 | An absent field reads as 0, which every range admits. |
| Serializers.ManualErrors | predictions/serializers.py:54-61 | Reports exactly the failing fields. The list is empty iff no field fails. An error is in it iff it names a field and carries that field's issue. |
| Serializers.ManualErrorsInOrder | predictions/serializers.py:54-61 | The errors follow declaration order. Error k belongs to the field at the k-th failing position. The positions strictly increase, so no field is reported twice. |
| Serializers.ManualMeasurements | predictions/serializers.py:54-61 | The validated record carries each field's submitted value. |
| Serializers.ValidateManual | predictions/serializers.py:54-61 | Succeeds iff no field is missing or out of bounds. The record then holds the submitted values. A failure carries the non-empty list of all field errors. |
| Serializers.NoIssueMeansPresent | predictions/serializers.py:55-61 | Every field is required. |
| Serializers.ManualRanges | predictions/serializers.py:55-61 | Spells out every manual bound, all inclusive and all required. They match the soil bounds except rainfall, whose range is [0,10000]. |
| Serializers.ManualVersusSoilRainfall | predictions/serializers.py:39 | A valid manual entry passes the soil-record check iff its rainfall is at most 3000. |
| Serializers.ManualEntryRejectedForRainfall | predictions/serializers.py:39-40 | For a valid manual entry with rainfall above 3000, the soil-record check fails and names `rainfall`. |
| Serializers.ManualAdmitsAllButRainfall | predictions/serializers.py:27-38 | A valid manual entry passes the first six soil-record guards. |
| MlModel.Lookup | predictions/ml_model.py:148 | `dict.get` finds a value iff some entry has the key, and then gives the value of the first such entry. |
| MlModel.EntriesFollowLabels | predictions/ml_model.py:16-46 | `crop_info` lists the 22 labels in class-index order. |
| MlModel.EveryLabelHasInfo | predictions/ml_model.py:147-154 | Every label's lookup finds its own entry, so the `title()` and `N/A` fallbacks are never used. |
| MlModel.CropLabelsDistinct | predictions/ml_model.py:16-22 | No two class indices share a label. |
| MlModel.LookupAll | predictions/ml_model.py:134 | The comprehension succeeds iff every name is a key, giving the values in name order. Otherwise it fails on the first missing name. |
| MlModel.Features | predictions/ml_model.py:133-137 | The feature vector `predict` builds: for a dict, its values in `feature_names` order, or the KeyError of the first missing name; a list is used as given. Its meaning is stated by `FeatureOrder`. |
| MlModel.FeatureOrder | predictions/ml_model.py:133-135 | A dict yields its seven values in the order N, P, K, temperature, humidity, ph, rainfall iff it has all seven keys. A dict without `N` raises a KeyError for `N`. |
| MlModel.ArgMaxExcluding | predictions/ml_model.py:143 | Gives an unused index of largest probability, or -1 exactly when every index is used. |
| MlModel.TopIndices | predictions/ml_model.py:143 | Returns min(3, number of classes) distinct indices in non-increasing probability, none beaten by an unchosen index. This holds for any order of ties. |
| MlModel.InitialTablesWellFormed | predictions/ml_model.py:13-47 | The tables `__init__` sets have distinct labels and list the info in label order. |
| MlModel.LabelInfo | predictions/ml_model.py:147-148 | In well-formed tables, label i's info is entry i. |
| MlModel.ResultFor | predictions/ml_model.py:146-155 | One reply entry: the class label, the label's `crop_info` (or the fallback) and the probability × 100. Its meaning is stated by `AssembledInfo` and `AssembledFromClasses`. |
| MlModel.Assemble | predictions/ml_model.py:145-157 | Gives one entry per chosen index, in order, iff every index has a label. Otherwise it raises on the first index without one. |
| MlModel.AssembleFailureSticks | predictions/ml_model.py:146-147 | Once an index raises, the whole reply is that error. |
| MlModel.AssembleResults | predictions/ml_model.py:145-155 | The loop over the chosen indices computes `Assemble`. |
| MlModel.AssembledOrdered | predictions/ml_model.py:143-156 | The reply has min(3, number of classes) entries with non-increasing confidence. |
| MlModel.AssembledDistinct | predictions/ml_model.py:143-156 | The reply names distinct crops. |
| MlModel.AssembledFromClasses | predictions/ml_model.py:147-152 | Each entry is some class's label, with that class's probability times 100. |
| MlModel.AssembledDominant | predictions/ml_model.py:143-152 | No class left out of the reply has a higher confidence than an entry in it. |
| MlModel.AssembledInfo | predictions/ml_model.py:147-154 | Each entry's name, season and harvest time are its crop's `crop_info` row. |
| MlModel.AssembledTopThree | predictions/ml_model.py:143-156 | Every property listed above holds together. |
| MlModel.PredictWith | predictions/ml_model.py:128-157 | `predict`'s reply for given tables: the features, the probabilities, the top-three selection and assembly. `PredictWithTopThree` states that a success is a top-three reply, and `PredictFailureCauses` states when it fails. |
| MlModel.PredictWithTopThree | predictions/ml_model.py:128-157 | A successful `predict` had a feature vector and returns a top-three reply for its probabilities. |
| MlModel.PredictTopThree | predictions/ml_model.py:128-157 | The same holds with the tables `__init__` sets. |
| MlModel.PredictFailureCauses | predictions/ml_model.py:133-147 | `predict` raises only for a dict missing a feature, with that KeyError, or when the classifier returns more classes than there are labels. |
| MlModel.BlockShape | predictions/ml_model.py:68-79 | One crop's block has `count` rows, each labelled with the crop and drawn from the crop's ranges. |
| MlModel.BlockCount | predictions/ml_model.py:68-79 | A block holds `count` rows of its own label and none of any other. |
| MlModel.BlocksLength | predictions/ml_model.py:61-79 | The first c blocks have c * count rows. |
| MlModel.BlocksCount | predictions/ml_model.py:61-79 | Each label below c has exactly `count` rows and no other label has any. |
| MlModel.BlocksRows | predictions/ml_model.py:61-79 | Every row's label is below c and its ranges are its crop's `crop_params` entry, or the default one. |
| MlModel.BlocksSorted | predictions/ml_model.py:61-79 | The rows are grouped by ascending label. |
| MlModel.SyntheticDataShape | predictions/ml_model.py:49-82 | The frame has 22 * (n_samples // 22) rows. Each label 0..21 has exactly n_samples // 22 of them, no other label has any, and labels ascend. |
| MlModel.DefaultFrameSize | predictions/ml_model.py:49-60 | The default call builds 100 rows per crop, 2200 in all. |
| MlModel.TrainsAtMostOnce | predictions/ml_model.py:130-131 | After one `predict` both artefacts are set, and a later `predict` leaves them as they are. |
| MlModel.CropPredictionModel.constructor | predictions/ml_model.py:13-47 | No model or scaler. The tables are the label and info tables, which are well formed. |
| MlModel.CropPredictionModel.CreateSyntheticData | predictions/ml_model.py:60-82 | The nested loops build the frame `SyntheticData(n_samples)`. |
| MlModel.CropPredictionModel.TrainModel | predictions/ml_model.py:84-126 | Both fields get the loaded pickles iff `retrain` is false and both files exist. Otherwise they get a fit on the default frame, and the pickles are written exactly then. The tables are untouched. It preserves `Valid` (well-formed tables). |
| MlModel.CropPredictionModel.Predict | predictions/ml_model.py:128-157 | Returns `predict`'s reply for the current tables. It trains first iff the model or the scaler is unset; otherwise it leaves both as they are. It preserves `Valid` (well-formed tables). |
| Views.NewSoilRowsFresh | predictions/views.py:87-98 | `bulk_create` gives one soil row per record, in the records' order, with the owner and dataset it was given. The ids are distinct, strictly increasing and all in `start .. start + n`. |
| Views.NewPredictionRowsFresh | predictions/views.py:201-213 | One prediction row per (soil row, slots) item, in order. The ids are distinct, strictly increasing and all in `start .. start + n`. |
| Views.SoilIdsOf | predictions/models.py:34 | The ids of exactly the soil rows that point to the dataset. |
| Views.Store.constructor | predictions/models.py:8-118 | The database starts with all three tables empty. It establishes `Valid`: every id and every reference lies below the id counter, and each table lists its rows by strictly increasing id, as they were created. |
| Views.Store.CreateDataset | predictions/views.py:66-69 | Appends the dataset row with a fresh id, its `upload_to` path, its size and a row count of 0. Nothing else changes. It keeps `Valid`. |
| Views.Store.SetRowsCount | predictions/views.py:108-109 | Changes only that dataset's `rows_count`. It keeps `Valid`. |
| Views.Store.DeleteDataset | predictions/models.py:25-29 | Removes the dataset row, the soil rows cascading from it and the predictions of either. It keeps `Valid`. |
| Views.Store.BulkCreateSoil | predictions/views.py:106 | Appends the new soil rows with fresh ids. Nothing else changes. It keeps `Valid`. |
| Views.Store.CreateSoil | predictions/views.py:131-134 | Appends one soil row with a fresh id. It keeps `Valid`. |
| Views.Store.CreatePrediction | predictions/views.py:141-151 | Appends one prediction row with a fresh id. It keeps `Valid`. |
| Views.Store.BulkCreatePredictions | predictions/views.py:216 | Appends the new prediction rows with fresh ids. It keeps `Valid`. |
| Views.DeleteFreshDatasetRow | predictions/views.py:78 | Deleting the dataset just created restores the dataset table. |
| Views.DeleteFreshDatasetSoil | predictions/views.py:100 | That deletion cascades to no soil row. |
| Views.DeleteFreshDatasetPredictions | predictions/views.py:100 | That deletion cascades to no prediction. |
| Views.MissingColumns | predictions/views.py:74-75 | Lists exactly the required columns absent from the header, in required-column order. |
| Views.ColumnValues | predictions/views.py:90-96 | Succeeds iff every column is present and numeric, giving the values in column order. Otherwise it fails on the first bad column. |
| Views.ConvertRows | predictions/views.py:84-103 | The row loop computes `ConvertAll`: every record, or the first row's error. |
| Views.UploadChecks | predictions/views.py:52-65 | Passes iff a file is present, its name ends in `.csv` and the serializer admits its size. |
| Views.UploadCheckOrder | predictions/views.py:52-57 | A missing file and a wrong name are rejected before any dataset exists, each with its own error. The serializer's error is only ever about the size. |
| Views.ParseFrame | predictions/views.py:74-103 | Succeeds iff no required column is missing and every row converts, and then gives the converted records. A missing column fails with the list of missing columns. Otherwise the failure is the first bad row's error. |
| Views.ColumnsCheckedFirst | predictions/views.py:74-81 | The header is checked before any row is converted. With a column missing, the result does not depend on the rows, and the error lists exactly the required columns absent from the header. |
| Views.StoredRows | predictions/views.py:106 | `soil_data_records[:1000]`. `IngestCapVersusRowsCount` states its length bound and that it is a prefix. |
| Views.IngestCapVersusRowsCount | predictions/views.py:105-115 | At most 1000 records are stored. All are stored iff there are at most 1000, and the stored ones are a prefix. |
| Views.UploadCsv | predictions/views.py:50-122 | Covers all four outcomes: rejected before any dataset; `read_csv` raising, which keeps the dataset and gives a 500; a missing column or a bad row, which deletes the dataset; and success, with the first 1000 soil rows and `rows_count` = all parsed rows. |
| Views.IngestFrame | predictions/views.py:74-115 | From line 74 on: on a bad frame the dataset is deleted and the tables restored; otherwise the records are stored. |
| Views.StoreParsed | predictions/views.py:105-109 | The capped records are appended and `rows_count` is set to the full count. |
| Views.DeleteCreated | predictions/views.py:77-81 | Deleting the dataset just created removes only its row. |
| Views.Vector | predictions/views.py:185-193 | One value per required column. Entry i is the record's value of the i-th soil parameter, which is the parameter of column i. |
| Views.SoilDict | predictions/views.py:185-193 | The record's seven values under the CSV column names. `SoilDictAt` and `SoilDictFeatures` state the keys, the values and that `predict` receives them in feature order. |
| Views.SoilDictAt | predictions/views.py:185-193 | The dict holds every required column with the record's value for it. |
| Views.ConvertRow | predictions/views.py:87-97 | One CSV row to a soil record. `RowRecordRoundTrip` and `RecordRowRoundTrip` state that it succeeds iff every required column holds a number, and that it is inverse to `SoilDict` on those columns. |
| Views.RecordRowRoundTrip | predictions/views.py:90-96 | Writing a record out under the CSV columns and converting it back gives the same record. |
| Views.RowRecordRoundTrip | predictions/views.py:185-193 | An accepted row's record maps back to the values the row had, column by column. |
| Views.ColumnsAreFeatures | predictions/views.py:74 | `required_columns` is `feature_names`. |
| Views.SoilDictFeatures | predictions/views.py:185-195 | The dict `predict_csv` builds gives `predict` the record's seven values in feature order. |
| Views.SlotResults | predictions/views.py:144-149 | The six result fields of a prediction row from the reply list. `SlotRoundTrip` states that it exists iff the list is non-empty, and then holds exactly the first three (crop, confidence) pairs in order. |
| Views.SlotRoundTrip | predictions/views.py:144-149 | A list can be slotted iff it is non-empty. The row then holds exactly its first min(3, n) (crop, confidence) pairs, and the second and third slots are filled iff n > 1 and n > 2. |
| Views.ValidatedData | predictions/views.py:138 | `serializer.validated_data`: the record under the serializer's field names. `ManualPredictionAsWrittenFails` states that it lacks `N`, so `predict` raises. |
| Views.ManualPredictionAsWrittenFails | predictions/views.py:138 | For every valid record, `predict(serializer.validated_data)` raises a KeyError for `N`. |
| Views.ManualPredictionCorrected | predictions/views.py:137-158 | With the feature-named dict, a valid request whose classifier answers at least one class and no more classes than there are labels gets a top-three reply. |
| Views.ManualReplyFor | predictions/views.py:151-165 | The manual reply: the prediction id, the list and the soil id, or a 500 for an exception or an empty list. `RecordManualPrediction` and `PredictManual` tie it to the stored rows. |
| Views.ManualPredictionRows | predictions/views.py:141-151 | At most one prediction row, stored iff the reply succeeds. |
| Views.ManualPredictionRowContents | predictions/views.py:141-151 | The stored row takes the next id after the soil row and belongs to the user and that soil row, with no dataset and model version `1.0`. Its slots hold the reply's first min(3, n) (crop, confidence) pairs in order. |
| Views.PredictManualVia | predictions/views.py:125-165 | The datasets and the model's tables never change. An invalid request changes nothing. A valid one stores its soil row, then the prediction row iff `predict` gave a reply, and returns that reply or the 500. |
| Views.RecordManualPrediction | predictions/views.py:137-163 | The `try` block stores a prediction row only when `predict` returned a first result. |
| Views.PredictManualAsWritten | predictions/views.py:125-165 | The code as written. Every valid request stores a soil row (one id used) and trains the model first if it is unset. It then stores no prediction and ends in the 500 for KeyError `N`. An invalid request changes nothing. The datasets and the tables never change. |
| Views.PredictManual | predictions/views.py:125-165 | The corrected handler. The reply, the stored rows, the id counter and the model pair follow `predict` on the record's feature dict under the tables before the call. An invalid request changes nothing. The datasets and the tables never change. |
| Views.DatasetRecords | predictions/views.py:173 | Exactly the soil rows of the dataset. |
| Views.DatasetRecordsNewestFirst | predictions/models.py:57 | In a store whose soil table is in creation order, the records come newest first, by strictly decreasing id. There are as many records as the dataset has soil ids. |
| Views.CsvBatch | predictions/views.py:184 | The first min(100, n) records of the dataset. |
| Views.PredictRowMeaning | predictions/views.py:195-210 | A record yields an item iff `predict` returns a non-empty list. The item names the record, keeps the list and slots it. |
| Views.PredictRecord | predictions/views.py:185-213 | One pass of the loop computes `PredictRow` and trains at most as `predict` does. |
| Views.RunBatch | predictions/views.py:184-213 | The loop computes `PredictBatch`: every item, or the first failure. The tables are unchanged, and the model is trained at most once. |
| Views.BatchItemsFollowRecords | predictions/views.py:184-199 | Item i is the prediction for record i. |
| Views.BatchSucceeds | predictions/views.py:184-213 | When every record is answerable, the batch succeeds and each item is a top-three reply. |
| Views.CsvCaps | predictions/views.py:175-222 | At most 100 records are processed. `predictions_count` is the number processed. The reply shows the first min(10, n) items. Each stored row is its record's slotting. |
| Views.RecordBatch | predictions/views.py:215-223 | Stores the rows of a successful batch and nothing for a failed one. |
| Views.PredictCsv | predictions/views.py:168-228 | Another user's or a missing dataset gives 404, and no records gives 400, both with nothing changed. Otherwise the reply and the stored rows follow `PredictBatch` on the first 100 records, and a failure stores nothing. |
| Views.CropStats | predictions/views.py:300-308 | The count never exceeds the predictions. A count of 0 means no prediction counted and a sum of 0. |
| Views.CropInfoView | predictions/views.py:291-321 | Finds a page iff the lower-cased name is a `crop_info` key. The page shows that entry, the key and the user's statistics. |
| Views.CropInfoCaseInsensitive | predictions/views.py:293 | The lookup ignores ASCII case. |
| Views.LabelsAreLowerCase | predictions/ml_model.py:16-22 | Every label is its own lower-case key. |
| Views.EveryLabelHasPage | predictions/views.py:293-316 | Every crop `predict` can name has a page showing its `crop_info` entry. |
| Views.CropStatsBounds | predictions/views.py:305-308 | The sum lies between count * lowest and count * highest confidence. |
| Views.AvgConfidence | predictions/views.py:305-308 | `Avg('confidence_score') or 0` over the user's predictions of the crop. `AvgConfidenceBetween` states that it lies between the least and greatest counted confidence. |
| Views.AvgConfidenceBetween | predictions/views.py:305-308 | The average lies between the lowest and the highest counted confidence. |

## Left out

- Model checks: the checks scikit-learn, pandas and NumPy perform on their own are not modelled.
  - The random forest, `StandardScaler`, `train_test_split` and accuracy are foreign code. They appear only through the `proba` parameter.
  - The sample values of `np.random.uniform` are not modelled, and neither is the seed. Rows keep only their label and the ranges they are drawn from.
- Confidence: `round(…, 2)` in `predict` and in `crop_info` is floating-point rounding. A confidence is modelled as the probability times 100, and the average is not rounded.
- Feature vector: a list passed to `predict` instead of a dict is taken as is. The model does not check its length; that check is the classifier's.
- File I/O: joblib loading and dumping, `os.makedirs`, `os.path.exists` and `os.remove` the file in `Dataset.delete` are left out. The state of the disk is the `filesExist` parameter.
- CSV parsing: `pd.read_csv` becomes a parsed frame, or None when it raises. Each cell is already classified as a number or as text `float()` refuses.
  - The model does not decide which texts `float()` accepts.
- The model does not capture DRF's own field checks.
  - It does not check name length or the `FileField` checks.
  - It does not model `FloatField`'s parsing of strings. The manual fields arrive as numbers or are absent.
- HTTP: responses are `Result` values. Status codes, message texts beyond the serializer messages, and the `message` fields of replies are left out.
- Ordering: `ordering = ['-created_at']` is modelled as newest-first, meaning reverse insertion order. Rows created in the same instant are not told apart.
- Ids: every id comes from one counter shared by the three tables. Django numbers each table separately; ids are still fresh and distinct within each table.
- The model does not include `dashboard_stats`, `DatasetViewSet`, `SoilDataViewSet` and `PredictionViewSet.get_queryset`. They are ORM queries and DRF viewset machinery with no decision logic of their own.
  - `DatasetViewSet.perform_create` (predictions/views.py:24-36) is not modelled. It differs from `upload_csv`. When `read_csv` raises, it deletes the dataset and raises a validation error. Otherwise it sets `rows_count = len(df)`, with no column check and no conversion, and it stores no soil rows.
- Concurrency: the global `ml_model` is shared across requests. Its behaviour under concurrent requests is not modelled; each handler receives the model object.
- Strings: `lower()` and `title()` are modelled for ASCII letters only. Unicode case mapping is left out.
- The model does not include `predictions/admin.py`, `gaia/urls.py`, `predictions/urls.py`, `setup_gaia.py` or the `train_model` management command. They are configuration or scripting.
- Authentication: the model does not include authentication. The user is a number given to each handler.
- Views.Store.CreateDataset: stores `upload_to(user, filename)` as the file path as is. Django's storage sanitises the basename and renames the file when the name is taken; that is left out.
- Fallback predictor: `predict` has none. When the model or the scaler is unset it trains (predictions/ml_model.py:130-131), and training either loads the pickles or fits a new pair.
- Rainfall message: the message of the rainfall guard mentions a limit of 10000 mm, while the guard itself checks 3000. The model keeps the message text verbatim and proves the 3000 bound.
- Top-three ties: `argsort` leaves the order of equal probabilities to NumPy's sort. `MlModel.TopIndices` breaks ties towards the lowest index, so `CropPredictionModel.Predict`'s exact reply and the stored slots fix one tie order. For example, with p = [0.9, 0.05, 0.05, 0, …] the reply lists class 1 before class 2; NumPy may list them the other way round. The reply's properties (`AssembledOrdered`, `AssembledDistinct`, `AssembledDominant`, `AssembledTopThree`) are proved for every selection satisfying `IsTopSelection`, so they hold for any tie order.
- Floating point: probabilities, measurements and confidences are exact reals. NaN and the infinities are left out. In the source, an empty CSV cell becomes NaN, which `float()` accepts. Such a row would be stored with a NaN. `get_alerts` raises no alert for it, since every comparison with NaN is false, and `SoilDataSerializer.validate` rejects it. The model's `Cell` is a number or text, so it cannot express that row.
- Strings.Title: states only that the length is kept. The fallback it models is never reached (`MlModel.EveryLabelHasInfo`).
- Views.CropStats: its own contract states the bounds on the count only. The bounds on the sum and on the average are the lemmas `Views.CropStatsBounds` and `Views.AvgConfidenceBetween`.

## Findings

| source | as written | input that shows it | evidently intended | confidence | as-written member | corrected member |
|---|---|---|---|---|---|---|
| predictions/views.py:138 | `predict_manual` passes `serializer.validated_data` to `predict`. Its keys are `nitrogen`, `phosphorus`, …, while `predict` reads `N`, `P`, `K`, … (predictions/ml_model.py:47, 134). The KeyError for `N` turns every valid request into a 500, after its soil row is already stored. | Any valid manual entry, e.g. nitrogen 90, phosphorus 42, potassium 43, temperature 20.8, humidity 82, ph 6.5, rainfall 202.9 | Pass the record under the feature names, as `predict_csv` does at lines 185-193. The request then gets the top-three reply and a stored prediction row. | not executed | Views.PredictManualAsWritten | Views.PredictManual |
